/** The CSV-to-Redshift flow's finalizer, `lambda_finalize.lambda_handler`:
    the per-file results of the conversion and load steps and the errors of
    the prevalidation step are folded into counters, a failure list, an
    overall verdict, the finalize evidence and a summary.

    Lambda payloads that arrive as JSON text are decoded with the parameter
    `parse` (`None` when the text is not JSON); `now` is the clock reading
    and `errText` the text of an exception should one be raised. */
module CsvFinalize {
  import opened Results
  import opened Text
  import opened JsonValue

  /** What the loop over the map results has counted. */
  datatype Tally = Tally(conversions: nat, loads: nat, loadedRows: int, failures: seq<Json>)

  /** The verdict and counters of a completed run. */
  datatype Outcome = Outcome(totalFiles: nat, conversions: nat, loads: nat, loadedRows: int,
                             failures: seq<Json>, overallSuccess: bool)

  /** `for result in map_results`: a list gives its elements; an empty string
      or object gives nothing; a non-empty string or object yields elements
      on which the loop body raises, and any other value is not iterable. */
  function MapResultItems(j: Json): (r: Result<seq<Json>>)
    ensures r.Ok? <==> j.JArr? || j == JStr([]) || j == EmptyObj
    ensures j.JArr? ==> r == Ok(j.items)
    ensures r.Ok? && !j.JArr? ==> r.value == []
  {
    match j
    case JArr(a) => Ok(a)
    case JStr(s) => if s == [] then Ok([]) else Raised
    case JObj(m) => if m == map[] then Ok([]) else Raised
    case _ => Raised
  }

  /** `'glue_result' in result and result['glue_result'].get('JobRunState') == 'SUCCEEDED'` */
  function GlueSucceeded(r: Json): (ok: Result<bool>)
    ensures ok == Ok(true) ==> (r.JObj? && "glue_result" in r.fields && r.fields["glue_result"].JObj?
      && Lookup(r.fields["glue_result"].fields, "JobRunState", JNull) == JStr("SUCCEEDED"))
    ensures r.JObj? && "glue_result" in r.fields && r.fields["glue_result"].JObj? ==>
      ok == Ok(Lookup(r.fields["glue_result"].fields, "JobRunState", JNull) == JStr("SUCCEEDED"))
    ensures r.JObj? && "glue_result" !in r.fields ==> ok == Ok(false)
    ensures r.JObj? && "glue_result" in r.fields && !r.fields["glue_result"].JObj? ==> ok.Raised?
  {
    var has :- PyIn("glue_result", r);
    if !has then Ok(false)
    else if !r.JObj? then Raised
    else
      var glue := r.fields["glue_result"];
      if !glue.JObj? then Raised
      else Ok(Lookup(glue.fields, "JobRunState", JNull) == JStr("SUCCEEDED"))
  }

  /** A failure record `{step, file, error}`. */
  function FailureRecord(step: string, file: Json, error: Json): (f: Json)
    ensures Field(f, "step") == JStr(step) && Field(f, "file") == file && Field(f, "error") == error
  {
    JObj(map["step" := JStr(step), "file" := file, "error" := error])
  }

  /** The failure recorded for a result whose conversion did not succeed. */
  function GlueFailure(r: Json): (f: Result<Json>)
    ensures f.Ok? ==> Field(f.value, "step") == JStr("glue_convert")
  {
    if !r.JObj? then Raised
    else
      var glue := Lookup(r.fields, "glue_result", EmptyObj);
      if !glue.JObj? then Raised
      else Ok(FailureRecord("glue_convert", Lookup(r.fields, "key", JStr("unknown")),
                            Lookup(glue.fields, "ErrorMessage", JStr("Glue job failed"))))
  }

  /** A payload that is a string is decoded as JSON. */
  function DecodePayload(p: Json, parse: string -> Option<Json>): Result<Json> {
    if p.JStr? then (if parse(p.s).Some? then Ok(parse(p.s).value) else Raised) else Ok(p)
  }

  /** The decoded load payload, or `None` when the result has no
      `redshift_result`. */
  function LoadPayload(r: Json, parse: string -> Option<Json>): (p: Result<Option<map<string, Json>>>)
    ensures p == Ok(None) <==> PyIn("redshift_result", r) == Ok(false)
  {
    var has :- PyIn("redshift_result", r);
    if !has then Ok(None)
    else if !r.JObj? then Raised
    else
      var load := r.fields["redshift_result"];
      if !load.JObj? then Raised
      else
        var payload :- DecodePayload(Lookup(load.fields, "Payload", EmptyObj), parse);
        if !payload.JObj? then Raised else Ok(Some(payload.fields))
  }

  /** The conversion half of one pass: count it or record its failure. */
  function ConvertStep(t: Tally, r: Json): (u: Result<Tally>)
    ensures u.Ok? ==> r.JObj? && u.value.loads == t.loads && u.value.loadedRows == t.loadedRows
    ensures u.Ok? ==> (u.value.conversions == t.conversions + 1 && u.value.failures == t.failures)
                      || (u.value.conversions == t.conversions && |u.value.failures| == |t.failures| + 1
                          && u.value.failures[..|t.failures|] == t.failures
                          && Field(u.value.failures[|t.failures|], "step") == JStr("glue_convert"))
    ensures u.Ok? ==> (u.value.conversions == t.conversions + 1 <==> GlueSucceeded(r) == Ok(true))
    ensures u.Raised? <==> GlueSucceeded(r).Raised? || (GlueSucceeded(r) == Ok(false) && GlueFailure(r).Raised?)
  {
    var converted :- GlueSucceeded(r);
    if converted then Ok(t.(conversions := t.conversions + 1))
    else
      var f :- GlueFailure(r);
      Ok(t.(failures := t.failures + [f]))
  }

  /** The load half of one pass, for a result that is an object. */
  function LoadStep(t: Tally, r: Json, parse: string -> Option<Json>): (u: Result<Tally>)
    requires r.JObj?
    ensures u.Ok? && !HasLoad(r) ==> u.value == t
    ensures u.Ok? && HasLoad(r) ==>
      (u.value.conversions == t.conversions &&
      ((u.value.loads == t.loads + 1 && u.value.failures == t.failures)
       || (u.value.loads == t.loads && |u.value.failures| == |t.failures| + 1
           && u.value.failures[..|t.failures|] == t.failures
           && Field(u.value.failures[|t.failures|], "step") == JStr("redshift_load"))))
    ensures var load := LoadPayload(r, parse);
      load.Ok? && load.value.Some? && u.Ok? ==>
        var p := load.value.value;
        (u.value.loads == t.loads + 1 <==> Truthy(Lookup(p, "success", JNull)))
        && (Truthy(Lookup(p, "success", JNull)) ==>
              (AsInt(Lookup(p, "inserted_rows", JInt(0))).Ok?
               && u.value.loadedRows == t.loadedRows + AsInt(Lookup(p, "inserted_rows", JInt(0))).value))
        && (!Truthy(Lookup(p, "success", JNull)) ==> u.value.loadedRows == t.loadedRows)
    ensures u.Raised? <==>
      (LoadPayload(r, parse).Raised?
       || (LoadPayload(r, parse).value.Some? && Truthy(Lookup(LoadPayload(r, parse).value.value, "success", JNull))
           && AsInt(Lookup(LoadPayload(r, parse).value.value, "inserted_rows", JInt(0))).Raised?))
  {
    var load :- LoadPayload(r, parse);
    match load
    case None => Ok(t)
    case Some(p) =>
      if Truthy(Lookup(p, "success", JNull)) then
        var n :- AsInt(Lookup(p, "inserted_rows", JInt(0)));
        Ok(t.(loads := t.loads + 1, loadedRows := t.loadedRows + n))
      else
        Ok(t.(failures := t.failures + [FailureRecord("redshift_load", Lookup(r.fields, "key", JStr("unknown")),
                                                          Lookup(p, "error", JStr("Redshift load failed")))]))
  }

  /** One pass of the loop over the map results. */
  function StepResult(t: Tally, r: Json, parse: string -> Option<Json>): Result<Tally> {
    var t1 :- ConvertStep(t, r);
    LoadStep(t1, r, parse)
  }

  function FoldResults(rs: seq<Json>, parse: string -> Option<Json>): Result<Tally>
    decreases |rs|
  {
    if rs == [] then Ok(Tally(0, 0, 0, []))
    else
      var t :- FoldResults(rs[..|rs| - 1], parse);
      StepResult(t, rs[|rs| - 1], parse)
  }

  /** The number of failure records of a step. */
  function CountStep(failures: seq<Json>, step: string): nat
    decreases |failures|
  {
    if failures == [] then 0
    else CountStep(failures[..|failures| - 1], step) + (if Field(failures[|failures| - 1], "step") == JStr(step) then 1 else 0)
  }

  /** The result has a `redshift_result` entry. */
  predicate HasLoad(r: Json) {
    r.JObj? && "redshift_result" in r.fields
  }

  /** The number of results whose Glue job run SUCCEEDED. */
  function CountConverted(rs: seq<Json>): nat
    decreases |rs|
  {
    if rs == [] then 0 else CountConverted(rs[..|rs| - 1]) + (if GlueSucceeded(rs[|rs| - 1]) == Ok(true) then 1 else 0)
  }

  function CountLoads(rs: seq<Json>): nat
    decreases |rs|
  {
    if rs == [] then 0 else CountLoads(rs[..|rs| - 1]) + (if HasLoad(rs[|rs| - 1]) then 1 else 0)
  }

  /** Every result is either a successful conversion or one `glue_convert`
      failure; every result with a load entry is either a successful load or
      one `redshift_load` failure, and one without adds neither. */
  lemma {:induction false} FoldResultsCounts(rs: seq<Json>, parse: string -> Option<Json>)
    ensures var r := FoldResults(rs, parse);
      r.Ok? ==> r.value.conversions == CountConverted(rs)
                && r.value.conversions + CountStep(r.value.failures, "glue_convert") == |rs|
                && r.value.loads + CountStep(r.value.failures, "redshift_load") == CountLoads(rs)
    decreases |rs|
  {
    if rs != [] {
      var n := |rs| - 1;
      assert rs[..n] == rs[..|rs| - 1];
      FoldResultsCounts(rs[..n], parse);
      if FoldResults(rs, parse).Ok? {
        var t := FoldResults(rs[..n], parse).value;
        var t1 := ConvertStep(t, rs[n]).value;
        var u := LoadStep(t1, rs[n], parse).value;
        CountStepGrows(t.failures, t1.failures);
        CountStepGrows(t1.failures, u.failures);
      }
    }
  }

  /** Appending at most one record raises each step's count by that record's. */
  lemma CountStepGrows(fs: seq<Json>, gs: seq<Json>)
    requires gs == fs || (|gs| == |fs| + 1 && gs[..|fs|] == fs)
    ensures forall step :: CountStep(gs, step) == CountStep(fs, step) + (if gs == fs || Field(gs[|fs|], "step") != JStr(step) then 0 else 1)
  {
  }

  /** `prevalidate_result.get('Payload', {}).get('validation_errors', [])`,
      as the sequence the second loop walks: a list's elements or a string's
      characters; nothing when falsy. */
  function ValidationErrors(pr: Json, parse: string -> Option<Json>): (r: Result<seq<Json>>)
    ensures !pr.JObj? ==> r.Raised?
    ensures pr.JObj? ==> var p := DecodePayload(Lookup(pr.fields, "Payload", EmptyObj), parse);
      ((p.Raised? || !p.value.JObj?) ==> r.Raised?)
      && (p.Ok? && p.value.JObj? ==>
            var errors := Lookup(p.value.fields, "validation_errors", JArr([]));
            (!Truthy(errors) ==> r == Ok([]))
            && (Truthy(errors) && errors.JArr? ==> r == Ok(errors.items))
            && (Truthy(errors) && errors.JStr? ==> r.Ok? && |r.value| == |errors.s|)
            && (r.Raised? <==> Truthy(errors) && !errors.JArr? && !errors.JStr?))
  {
    if !pr.JObj? then Raised
    else
      var payload :- DecodePayload(Lookup(pr.fields, "Payload", EmptyObj), parse);
      if !payload.JObj? then Raised
      else
        var errors := Lookup(payload.fields, "validation_errors", JArr([]));
        if !Truthy(errors) then Ok([])
        else match errors
          case JArr(a) => Ok(a)
          case JStr(s) => Ok(Chars(s))
          case _ => Raised
  }

  function PrevalidateFailure(e: Json): (f: Json)
    ensures Field(f, "step") == JStr("prevalidate") && Field(f, "error") == e
  {
    FailureRecord("prevalidate", JStr("validation"), e)
  }

  function PrevalidateFailures(errors: seq<Json>): (fs: seq<Json>)
    ensures |fs| == |errors|
    ensures forall i :: 0 <= i < |errors| ==> fs[i] == PrevalidateFailure(errors[i])
  {
    seq(|errors|, i requires 0 <= i < |errors| => PrevalidateFailure(errors[i]))
  }

  /** The body of the `try`: `None` stands for the exception handler. */
  function Run(event: map<string, Json>, total: nat, parse: string -> Option<Json>): Result<Outcome> {
    var rs :- MapResultItems(Lookup(event, "map_results", JArr([])));
    var t :- FoldResults(rs, parse);
    var errors :- ValidationErrors(Lookup(event, "prevalidate_result", EmptyObj), parse);
    var failures := t.failures + PrevalidateFailures(errors);
    Ok(Outcome(total, t.conversions, t.loads, t.loadedRows, failures,
               |failures| == 0 && t.conversions == total && t.loads == total))
  }

  /** The run's verdict: success exactly when nothing failed and every file
      was both converted and loaded; the failures are those of the map
      results followed by one `prevalidate` record per validation error. */
  lemma RunVerdict(event: map<string, Json>, total: nat, parse: string -> Option<Json>)
    ensures var r := Run(event, total, parse);
      r.Ok? ==> (r.value.overallSuccess <==> r.value.failures == [] && r.value.conversions == total && r.value.loads == total)
    ensures var r := Run(event, total, parse);
      r.Ok? ==> exists rs, errors ::
        (MapResultItems(Lookup(event, "map_results", JArr([]))) == Ok(rs)
         && ValidationErrors(Lookup(event, "prevalidate_result", EmptyObj), parse) == Ok(errors)
         && r.value.failures == FoldResults(rs, parse).value.failures + PrevalidateFailures(errors)
         && r.value.conversions + CountStep(FoldResults(rs, parse).value.failures, "glue_convert") == |rs|)
  {
    var r := Run(event, total, parse);
    if r.Ok? {
      var rs := MapResultItems(Lookup(event, "map_results", JArr([]))).value;
      FoldResultsCounts(rs, parse);
    }
  }

  /** The finalize evidence of a completed run. */
  function EvidenceJson(batchId: Json, o: Outcome, now: string): (e: Json)
    ensures Field(Field(e, "output"), "total_failures") == JInt(|o.failures|)
    ensures Field(Field(e, "load"), "inserted_rows") == JInt(o.loadedRows)
    ensures Field(e, "ok") == JBool(o.overallSuccess) && Field(e, "step") == JStr("finalize")
  {
    JObj(map[
      "batch_id" := batchId,
      "test_id" := JStr(""),
      "flow" := JStr("csv-to-parquet-pipeline"),
      "step" := JStr("finalize"),
      "input" := JObj(map["total_files" := JInt(o.totalFiles), "batch_id" := batchId]),
      "output" := JObj(map["successful_conversions" := JInt(o.conversions), "successful_loads" := JInt(o.loads),
                           "total_failures" := JInt(|o.failures|)]),
      "load" := JObj(map["table" := JStr("consolidated_summary"), "inserted_rows" := JInt(o.loadedRows),
                         "dropped_rows" := JInt(0),
                         "reason" := JStr("Batch processing completed: " + NatToString(o.loads) + "/"
                                          + NatToString(o.totalFiles) + " files loaded successfully")]),
      "ok" := JBool(o.overallSuccess),
      "ts" := JStr(now),
      "note" := JStr("Finalized batch " + Show(batchId) + ": " + NatToString(o.conversions) + " conversions, "
                     + NatToString(o.loads) + " loads, " + NatToString(|o.failures|) + " failures")])
  }

  /** The summary of a completed run; the row totals are never filled in. */
  function SummaryJson(batchId: Json, o: Outcome, now: string): (s: Json)
    ensures Field(s, "status") == JStr(if o.overallSuccess then "SUCCESS" else "PARTIAL_FAILURE")
    ensures Field(Field(s, "statistics"), "total_input_rows") == JInt(0)
    ensures Field(Field(s, "statistics"), "total_output_rows") == JInt(0)
    ensures Field(Field(s, "statistics"), "failure_count") == JInt(|o.failures|)
  {
    JObj(map[
      "batch_id" := batchId,
      "status" := JStr(if o.overallSuccess then "SUCCESS" else "PARTIAL_FAILURE"),
      "statistics" := JObj(map["total_input_files" := JInt(o.totalFiles), "successful_conversions" := JInt(o.conversions),
                               "successful_loads" := JInt(o.loads), "total_input_rows" := JInt(0),
                               "total_output_rows" := JInt(0), "total_loaded_rows" := JInt(o.loadedRows),
                               "failure_count" := JInt(|o.failures|)]),
      "failures" := JArr(o.failures),
      "completed_at" := JStr(now)])
  }

  /** The response of the exception handler. */
  function ErrorResponse(batchId: Json, now: string, errText: string): (r: Json)
    ensures Field(r, "statusCode") == JInt(500)
    ensures Field(Field(r, "evidence"), "ok") == JBool(false) && Field(Field(r, "evidence"), "step") == JStr("finalize")
  {
    JObj(map[
      "statusCode" := JInt(500),
      "error" := JStr(errText),
      "evidence" := JObj(map["batch_id" := batchId, "step" := JStr("finalize"), "ok" := JBool(false),
                             "error" := JStr(errText), "ts" := JStr(now),
                             "note" := JStr("Failed to finalize batch " + Show(batchId) + ": " + errText)])])
  }

  /** The 200 response of a completed run: its verdict, summary and
      evidence. */
  function CompletedResponse(batchId: Json, o: Outcome, now: string): (r: Json)
    ensures Field(r, "statusCode") == JInt(200) && Field(r, "batch_id") == batchId
    ensures Field(r, "overall_success") == JBool(o.overallSuccess)
  {
    JObj(map["statusCode" := JInt(200), "batch_id" := batchId, "overall_success" := JBool(o.overallSuccess),
             "summary" := SummaryJson(batchId, o, now), "evidence" := EvidenceJson(batchId, o, now)])
  }

  /** `lambda_handler(event, context)`.  `len(files)` runs before the `try`,
      so a `files` without a length makes the invocation itself fail. */
  function Finalize(event: map<string, Json>, now: string, errText: string, parse: string -> Option<Json>): (r: Result<Json>)
    ensures r.Raised? <==> Len(Lookup(event, "files", JArr([]))).Raised?
    ensures r.Ok? ==> Field(r.value, "statusCode") == JInt(200) || Field(r.value, "statusCode") == JInt(500)
    ensures r.Ok? ==> var run := Run(event, Len(Lookup(event, "files", JArr([]))).value, parse);
      (run.Raised? ==> Field(r.value, "statusCode") == JInt(500))
      && (run.Ok? ==> Field(r.value, "statusCode") == JInt(200)
                      && Field(r.value, "overall_success") == JBool(run.value.overallSuccess))
  {
    var batchId := Lookup(event, "batch_id", JNull);
    var total :- Len(Lookup(event, "files", JArr([])));
    match Run(event, total, parse)
    case Raised => Ok(ErrorResponse(batchId, now, errText))
    case Ok(o) =>
      Ok(CompletedResponse(batchId, o, now))
  }

  /** One more result is one more pass of the loop. */
  lemma FoldNext(rs: seq<Json>, i: nat, parse: string -> Option<Json>)
    requires i < |rs| && FoldResults(rs[..i], parse).Ok?
    ensures FoldResults(rs[..i + 1], parse) == StepResult(FoldResults(rs[..i], parse).value, rs[i], parse)
  {
    assert rs[..i + 1][..i] == rs[..i];
  }

  /** The two loops of the handler, proved against `Run`. */
  method RunLoops(event: map<string, Json>, total: nat, parse: string -> Option<Json>) returns (r: Result<Outcome>)
    ensures r == Run(event, total, parse)
  {
    var items := MapResultItems(Lookup(event, "map_results", JArr([])));
    if items.Raised? {
      return Raised;
    }
    var rs := items.value;
    var t := Tally(0, 0, 0, []);
    var i := 0;
    while i < |rs|
      invariant 0 <= i <= |rs|
      invariant FoldResults(rs[..i], parse) == Ok(t)
    {
      FoldNext(rs, i, parse);
      var next := Visit(t, rs[i], parse);
      if next.Raised? {
        FoldRaisedPrefix(rs, i + 1, parse);
        return Raised;
      }
      t := next.value;
      i := i + 1;
    }
    assert rs[..|rs|] == rs;
    var errors := ValidationErrors(Lookup(event, "prevalidate_result", EmptyObj), parse);
    if errors.Raised? {
      return Raised;
    }
    var failures := AppendPrevalidate(t.failures, errors.value);
    var overall := |failures| == 0 && t.conversions == total && t.loads == total;
    return Ok(Outcome(total, t.conversions, t.loads, t.loadedRows, failures, overall));
  }

  /** `lambda_handler(event, context)` */
  method LambdaHandler(event: map<string, Json>, now: string, errText: string, parse: string -> Option<Json>)
    returns (r: Result<Json>)
    ensures r == Finalize(event, now, errText, parse)
  {
    var batchId := Lookup(event, "batch_id", JNull);
    var total := Len(Lookup(event, "files", JArr([])));
    if total.Raised? {
      return Raised;
    }
    var run := RunLoops(event, total.value, parse);
    if run.Raised? {
      return Ok(ErrorResponse(batchId, now, errText));
    }
    var o := run.value;
    return Ok(CompletedResponse(batchId, o, now));
  }

  /** The loop over the validation errors: one `prevalidate` record each. */
  method AppendPrevalidate(failures: seq<Json>, errors: seq<Json>) returns (fs: seq<Json>)
    ensures fs == failures + PrevalidateFailures(errors)
  {
    fs := failures;
    var j := 0;
    while j < |errors|
      invariant 0 <= j <= |errors|
      invariant |fs| == |failures| + j && fs[..|failures|] == failures
      invariant forall k :: 0 <= k < j ==> fs[|failures| + k] == PrevalidateFailure(errors[k])
    {
      fs := fs + [PrevalidateFailure(errors[j])];
      j := j + 1;
    }
  }

  /** The body of the loop over the map results, for one result. */
  method Visit(t: Tally, result: Json, parse: string -> Option<Json>) returns (r: Result<Tally>)
    ensures r == StepResult(t, result, parse)
  {
    var conversions, loads, loadedRows, failures := t.conversions, t.loads, t.loadedRows, t.failures;
    var converted := GlueSucceeded(result);
    if converted.Raised? {
      return Raised;
    }
    if converted.value {
      conversions := conversions + 1;
    } else {
      var f := GlueFailure(result);
      if f.Raised? {
        return Raised;
      }
      failures := failures + [f.value];
    }
    var load := LoadPayload(result, parse);
    if load.Raised? {
      return Raised;
    }
    if load.value.Some? {
      var payload := load.value.value;
      if Truthy(Lookup(payload, "success", JNull)) {
        var n := AsInt(Lookup(payload, "inserted_rows", JInt(0)));
        if n.Raised? {
          return Raised;
        }
        loads := loads + 1;
        loadedRows := loadedRows + n.value;
      } else {
        failures := failures + [FailureRecord("redshift_load", Lookup(result.fields, "key", JStr("unknown")),
                                              Lookup(payload, "error", JStr("Redshift load failed")))];
      }
    }
    return Ok(Tally(conversions, loads, loadedRows, failures));
  }

  /** A failed pass stays failed. */
  lemma {:induction false} FoldRaisedPrefix(rs: seq<Json>, i: nat, parse: string -> Option<Json>)
    requires i <= |rs| && FoldResults(rs[..i], parse).Raised?
    ensures FoldResults(rs, parse).Raised?
    decreases |rs| - i
  {
    if i < |rs| {
      assert rs[..i + 1][..i] == rs[..i];
      FoldRaisedPrefix(rs, i + 1, parse);
    } else {
      assert rs[..i] == rs;
    }
  }
}
