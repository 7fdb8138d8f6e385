/** The JSON-to-DynamoDB flow's finalizer, `lambda_json_finalizer`: the
    preprocessing and write results become statistics, a failure list and
    the finalize evidence; the verdict is the status the workflow passes in.

    `now` is the clock reading and `errText` the text of an exception should
    one be raised. */
module JsonFinalizer {
  import opened Results
  import opened Text
  import opened JsonValue

  /** `calculate_statistics`'s dict. */
  datatype Stats = Stats(inputItems: nat, preprocessedItems: Json, dynamoSuccess: Json, dynamoFailed: Json,
                         successRate: Json)

  const ZeroStats: Stats := Stats(0, JInt(0), JInt(0), JInt(0), JFloat(0, 1))

  /** `calculate_statistics(preprocess_result, dynamodb_result)` */
  function Statistics(pre: Json, dyn: Json): Result<Stats> {
    var s1 :- if !Truthy(pre) then Ok(ZeroStats)
              else if !pre.JObj? then Raised
              else
                var n :- Len(Lookup(pre.fields, "processed_items", JArr([])));
                Ok(ZeroStats.(inputItems := n, preprocessedItems := Lookup(pre.fields, "item_count", JInt(0))));
    var s2 :- if !Truthy(dyn) then Ok(s1)
              else if !dyn.JObj? then Raised
              else Ok(s1.(dynamoSuccess := Lookup(dyn.fields, "success_count", JInt(0)),
                          dynamoFailed := Lookup(dyn.fields, "failed_count", JInt(0))));
    var positive :- Positive(s2.preprocessedItems);
    if positive then
      var rate :- Divide(s2.dynamoSuccess, s2.preprocessedItems);
      Ok(s2.(successRate := rate))
    else Ok(s2)
  }

  /** Empty results leave every counter at zero; otherwise `input_items`
      is the number of processed items, `preprocessed_items` the reported
      item count, and the write counts are copied across. */
  lemma StatisticsMeaning(pre: Json, dyn: Json)
    ensures !Truthy(pre) && !Truthy(dyn) ==> Statistics(pre, dyn) == Ok(ZeroStats)
    ensures var r := Statistics(pre, dyn);
      r.Ok? && Truthy(pre) ==> (pre.JObj? && Len(Lookup(pre.fields, "processed_items", JArr([]))) == Ok(r.value.inputItems)
                                && r.value.preprocessedItems == Lookup(pre.fields, "item_count", JInt(0)))
    ensures var r := Statistics(pre, dyn);
      r.Ok? && Truthy(dyn) ==> (dyn.JObj? && r.value.dynamoSuccess == Lookup(dyn.fields, "success_count", JInt(0))
                                && r.value.dynamoFailed == Lookup(dyn.fields, "failed_count", JInt(0)))
    ensures var r := Statistics(pre, dyn);
      r.Ok? && !Truthy(dyn) ==> r.value.dynamoSuccess == JInt(0) && r.value.dynamoFailed == JInt(0)
  {
  }

  /** The success rate is successes over preprocessed items when that count
      is positive, and zero otherwise. */
  lemma SuccessRate(pre: Json, dyn: Json)
    ensures var r := Statistics(pre, dyn);
      r.Ok? && r.value.preprocessedItems.JInt? && r.value.preprocessedItems.n > 0 && r.value.dynamoSuccess.JInt? ==>
        r.value.successRate == JFloat(r.value.dynamoSuccess.n, r.value.preprocessedItems.n)
    ensures var r := Statistics(pre, dyn);
      r.Ok? && r.value.preprocessedItems.JInt? && r.value.preprocessedItems.n <= 0 ==> r.value.successRate == JFloat(0, 1)
  {
  }

  /** `calculate_statistics`, field by field. */
  method CalculateStatistics(pre: Json, dyn: Json) returns (r: Result<Stats>)
    ensures r == Statistics(pre, dyn)
  {
    var stats := ZeroStats;
    if Truthy(pre) {
      if !pre.JObj? {
        return Raised;
      }
      var n := Len(Lookup(pre.fields, "processed_items", JArr([])));
      if n.Raised? {
        return Raised;
      }
      stats := stats.(inputItems := n.value);
      stats := stats.(preprocessedItems := Lookup(pre.fields, "item_count", JInt(0)));
    }
    if Truthy(dyn) {
      if !dyn.JObj? {
        return Raised;
      }
      stats := stats.(dynamoSuccess := Lookup(dyn.fields, "success_count", JInt(0)));
      stats := stats.(dynamoFailed := Lookup(dyn.fields, "failed_count", JInt(0)));
    }
    var positive := Positive(stats.preprocessedItems);
    if positive.Raised? {
      return Raised;
    }
    if positive.value {
      var rate := Divide(stats.dynamoSuccess, stats.preprocessedItems);
      if rate.Raised? {
        return Raised;
      }
      stats := stats.(successRate := rate.value);
    }
    return Ok(stats);
  }

  /** The preprocessing failure, present when the preprocessing result is
      non-empty and reports `success` false. */
  function PreprocessFailures(pre: Json): Result<seq<Json>> {
    if !Truthy(pre) then Ok([])
    else if !pre.JObj? then Raised
    else if Truthy(Lookup(pre.fields, "success", JBool(true))) then Ok([])
    else Ok([JObj(map["step" := JStr("json_preprocess"),
                      "error" := Lookup(pre.fields, "error", JStr("Unknown error")),
                      "details" := pre])])
  }

  /** The failed items the write failures are taken from: the first three
      of the list.  A truthy non-list raises (a string's first character has
      no `get`, a dict cannot be sliced, a number cannot be subscripted). */
  function FailedItemsHead(dyn: Json): Result<seq<Json>> {
    if !Truthy(dyn) then Ok([])
    else if !dyn.JObj? then Raised
    else
      var items := Lookup(dyn.fields, "failed_items", JNull);
      if !Truthy(items) then Ok([])
      else if !items.JArr? then Raised
      else Ok(if |items.items| <= 3 then items.items else items.items[..3])
  }

  function WriteFailure(item: map<string, Json>): Json {
    JObj(map["step" := JStr("dynamodb_write"),
             "error" := Lookup(item, "error", JStr("Write failed")),
             "details" := JObj(item)])
  }

  /** One `dynamodb_write` record per failed item; an item that is no dict raises. */
  function WriteFailures(items: seq<Json>): Result<seq<Json>>
    decreases |items|
  {
    if items == [] then Ok([])
    else
      var fs :- WriteFailures(items[..|items| - 1]);
      var last := items[|items| - 1];
      if last.JObj? then Ok(fs + [WriteFailure(last.fields)]) else Raised
  }

  lemma {:induction false} WriteFailuresLength(items: seq<Json>)
    ensures WriteFailures(items).Ok? ==> |WriteFailures(items).value| == |items|
    ensures WriteFailures(items).Ok? ==> forall i :: 0 <= i < |items| ==>
      Field(WriteFailures(items).value[i], "step") == JStr("dynamodb_write") && Field(WriteFailures(items).value[i], "details") == items[i]
    decreases |items|
  {
    if items != [] {
      WriteFailuresLength(items[..|items| - 1]);
    }
  }

  /** `get_failures(preprocess_result, dynamodb_result)` */
  function Failures(pre: Json, dyn: Json): Result<seq<Json>> {
    var p :- PreprocessFailures(pre);
    var head :- FailedItemsHead(dyn);
    var w :- WriteFailures(head);
    Ok(p + w)
  }

  /** At most one preprocessing failure, present exactly when the result is
      non-empty with `success` false, followed by one write failure for each
      of the first three failed items: never more than four. */
  lemma FailuresMeaning(pre: Json, dyn: Json)
    ensures var r := Failures(pre, dyn);
      r.Ok? ==> |r.value| <= 4
    ensures var r := Failures(pre, dyn);
      r.Ok? ==> (|PreprocessFailures(pre).value| == 1
                 <==> Truthy(pre) && !Truthy(Lookup(pre.fields, "success", JBool(true))))
    ensures var r := Failures(pre, dyn);
      r.Ok? && Truthy(dyn) && dyn.JObj? && Lookup(dyn.fields, "failed_items", JNull).JArr? ==>
        var items := Lookup(dyn.fields, "failed_items", JNull).items;
        |r.value| == |PreprocessFailures(pre).value| + (if |items| <= 3 then |items| else 3)
    ensures var r := Failures(pre, dyn);
      r.Ok? ==> forall i :: |PreprocessFailures(pre).value| <= i < |r.value| ==>
        Field(r.value[i], "step") == JStr("dynamodb_write")
  {
    var r := Failures(pre, dyn);
    if r.Ok? {
      WriteFailuresLength(FailedItemsHead(dyn).value);
    }
  }

  /** `get_failures`, appending record by record. */
  method GetFailures(pre: Json, dyn: Json) returns (r: Result<seq<Json>>)
    ensures r == Failures(pre, dyn)
  {
    var failures := PreprocessFailures(pre);
    if failures.Raised? {
      return Raised;
    }
    var head := FailedItemsHead(dyn);
    if head.Raised? {
      return Raised;
    }
    var items := head.value;
    var written: seq<Json> := [];
    var i := 0;
    while i < |items|
      invariant 0 <= i <= |items|
      invariant WriteFailures(items[..i]) == Ok(written)
    {
      assert items[..i + 1][..i] == items[..i];
      if !items[i].JObj? {
        WriteFailuresRaised(items, i + 1);
        return Raised;
      }
      written := written + [WriteFailure(items[i].fields)];
      i := i + 1;
    }
    assert items[..|items|] == items;
    return Ok(failures.value + written);
  }

  lemma {:induction false} WriteFailuresRaised(items: seq<Json>, i: nat)
    requires i <= |items| && WriteFailures(items[..i]).Raised?
    ensures WriteFailures(items).Raised?
    decreases |items| - i
  {
    if i < |items| {
      assert items[..i + 1][..i] == items[..i];
      WriteFailuresRaised(items, i + 1);
    } else {
      assert items[..i] == items;
    }
  }

  /** The parts of the evidence note: the status, then the counts when
      there are statistics, then the error when one is given. */
  function NoteParts(status: Json, stats: Option<Stats>, error: string): (parts: seq<string>)
    ensures |parts| == 1 + (if stats.Some? then 1 else 0) + (if error != [] then 1 else 0)
    ensures parts[0] == "JSON処理完了: " + Show(status)
    ensures stats.Some? ==> parts[1] == Show(stats.value.dynamoSuccess) + "件成功, " + Show(stats.value.dynamoFailed) + "件失敗"
    ensures error != [] ==> parts[|parts| - 1] == "エラー: " + error
  {
    ["JSON処理完了: " + Show(status)]
    + (if stats.Some? then [Show(stats.value.dynamoSuccess) + "件成功, " + Show(stats.value.dynamoFailed) + "件失敗"] else [])
    + (if error != [] then ["エラー: " + error] else [])
  }

  /** `create_evidence(batch_id, success, statistics, status, error)`;
      `None` stands for the empty statistics of the error path. */
  function EvidenceJson(batchId: Json, success: bool, stats: Option<Stats>, status: Json, error: string, now: string): (e: Json)
    ensures Field(e, "step") == JStr("finalize") && Field(e, "ok") == JBool(success)
    ensures stats.Some? ==> Field(Field(e, "load"), "inserted_rows") == stats.value.dynamoSuccess
                            && Field(Field(e, "load"), "dropped_rows") == stats.value.dynamoFailed
    ensures Field(e, "note") == JStr(Join(NoteParts(status, stats, error), " | "))
  {
    var s := if stats.Some? then stats.value else ZeroStats;
    var rate := if stats.Some? then s.successRate else JInt(0);
    JObj(map[
      "batch_id" := batchId,
      "test_id" := JStr(""),
      "flow" := JStr("json-to-dynamodb-pipeline"),
      "step" := JStr("finalize"),
      "input" := JObj(map["total_items" := JInt(s.inputItems), "batch_id" := batchId]),
      "output" := JObj(map["successful_writes" := s.dynamoSuccess, "failed_writes" := s.dynamoFailed,
                           "success_rate" := rate]),
      "load" := JObj(map["table" := JStr("consolidated_summary"), "inserted_rows" := s.dynamoSuccess,
                         "dropped_rows" := s.dynamoFailed, "reason" := JStr("JSON処理完了: " + Show(status))]),
      "ok" := JBool(success),
      "ts" := JStr(now),
      "note" := JStr(Join(NoteParts(status, stats, error), " | "))])
  }

  function StatsJson(s: Stats): Json {
    JObj(map["input_items" := JInt(s.inputItems), "preprocessed_items" := s.preprocessedItems,
             "dynamodb_success" := s.dynamoSuccess, "dynamodb_failed" := s.dynamoFailed,
             "success_rate" := s.successRate])
  }

  /** The response of a run that raised nothing; the verdict is the
      workflow's status alone. */
  function SuccessResponse(batchId: Json, status: Json, stats: Stats, failures: seq<Json>, now: string): (r: Json)
    ensures Field(r, "statusCode") == JInt(200)
    ensures Field(r, "overall_success") == JBool(status == JStr("SUCCESS"))
    ensures Field(Field(r, "evidence"), "ok") == Field(r, "overall_success")
    ensures Field(Field(r, "summary"), "failures") == JArr(failures)
  {
    var overall := status == JStr("SUCCESS");
    JObj(map["statusCode" := JInt(200), "batch_id" := batchId, "overall_success" := JBool(overall), "status" := status,
             "summary" := JObj(map["batch_id" := batchId, "status" := status, "statistics" := StatsJson(stats),
                                   "failures" := JArr(failures), "completed_at" := JStr(now)]),
             "evidence" := EvidenceJson(batchId, overall, Some(stats), status, "", now)])
  }

  /** The response of the exception handler: a failed evidence whose note
      is the `ERROR` status followed by the error. */
  function ErrorResponse(batchId: Json, errText: string, now: string): (r: Json)
    ensures Field(r, "statusCode") == JInt(500) && Field(r, "overall_success") == JBool(false)
    ensures Field(Field(r, "evidence"), "ok") == JBool(false)
    ensures Field(Field(r, "evidence"), "note")
            == JStr(Join(["JSON処理完了: ERROR", "エラー: JSON処理完了エラー: " + errText], " | "))
  {
    var message := "JSON処理完了エラー: " + errText;
    assert "JSON処理完了: " + Show(JStr("ERROR")) == "JSON処理完了: ERROR";
    assert "エラー: " + message == "エラー: JSON処理完了エラー: " + errText;
    assert NoteParts(JStr("ERROR"), None, message) == ["JSON処理完了: ERROR", "エラー: JSON処理完了エラー: " + errText];
    JObj(map["statusCode" := JInt(500), "batch_id" := batchId, "overall_success" := JBool(false),
             "error" := JStr(message),
             "evidence" := EvidenceJson(batchId, false, None, JStr("ERROR"), message, now)])
  }

  /** `lambda_handler(event, context)` */
  function Finalize(event: map<string, Json>, now: string, errText: string): Json {
    var batchId := Lookup(event, "batch_id", JNull);
    var pre := Lookup(event, "preprocess_result", EmptyObj);
    var dyn := Lookup(event, "dynamodb_result", EmptyObj);
    var status := Lookup(event, "status", JStr("UNKNOWN"));
    match (Statistics(pre, dyn), Failures(pre, dyn))
    case (Ok(stats), Ok(failures)) => SuccessResponse(batchId, status, stats, failures, now)
    case _ => ErrorResponse(batchId, errText, now)
  }

  /** The verdict is the workflow's status alone: success exactly when it
      is `SUCCESS`, whatever the statistics say.  The call answers 200
      exactly when the statistics and the failures could be computed, and
      otherwise 500 with a failed evidence. */
  lemma FinalizeVerdict(event: map<string, Json>, now: string, errText: string)
    ensures var r := Finalize(event, now, errText);
      Field(r, "statusCode") == JInt(200) ==>
        Field(r, "overall_success") == JBool(Lookup(event, "status", JStr("UNKNOWN")) == JStr("SUCCESS"))
        && Field(Field(r, "evidence"), "ok") == Field(r, "overall_success")
    ensures var r := Finalize(event, now, errText);
      var pre, dyn := Lookup(event, "preprocess_result", EmptyObj), Lookup(event, "dynamodb_result", EmptyObj);
      (Field(r, "statusCode") == JInt(200) <==> Statistics(pre, dyn).Ok? && Failures(pre, dyn).Ok?)
      && (Field(r, "statusCode") == JInt(500) <==> !(Statistics(pre, dyn).Ok? && Failures(pre, dyn).Ok?))
    ensures var r := Finalize(event, now, errText);
      Field(r, "statusCode") == JInt(500) ==>
        Field(r, "overall_success") == JBool(false) && Field(Field(r, "evidence"), "ok") == JBool(false)
  {
  }

  /** `lambda_handler`, calling the two step-by-step helpers. */
  method LambdaHandler(event: map<string, Json>, now: string, errText: string) returns (r: Json)
    ensures r == Finalize(event, now, errText)
  {
    var batchId := Lookup(event, "batch_id", JNull);
    var pre := Lookup(event, "preprocess_result", EmptyObj);
    var dyn := Lookup(event, "dynamodb_result", EmptyObj);
    var status := Lookup(event, "status", JStr("UNKNOWN"));
    var stats := CalculateStatistics(pre, dyn);
    var failures := GetFailures(pre, dyn);
    if stats.Ok? && failures.Ok? {
      r := SuccessResponse(batchId, status, stats.value, failures.value, now);
    } else {
      r := ErrorResponse(batchId, errText, now);
    }
  }
}
