/** The log-to-Athena flow's finalizer, `lambda_log_finalizer`: the results
    of log collection, the crawler and the Athena queries become statistics,
    a failure list and the finalize evidence; the verdict is the status the
    workflow passes in.

    `now` is the clock reading and `errText` the text of an exception should
    one be raised. */
module LogFinalizer {
  import opened Results
  import opened Text
  import opened JsonValue

  /** `calculate_log_statistics`'s dict; the success rate is
      `successfulSteps / 3`. */
  datatype Stats = Stats(logFiles: Json, totalLines: Json, errorLines: Json, tablesCreated: nat,
                         queriesExecuted: Json, rowsAnalyzed: Json, successfulSteps: nat)

  const ZeroStats: Stats := Stats(JInt(0), JInt(0), JInt(0), 0, JInt(0), JInt(0), 0)

  /** The number of stages: log collection, crawler, Athena. */
  const TotalSteps: nat := 3

  /** `result and result.get('success')`: a non-empty stage result that
      reports success; a truthy non-dict raises. */
  function Succeeded(result: Json): Result<bool> {
    if !Truthy(result) then Ok(false)
    else if !result.JObj? then Raised
    else Ok(Truthy(Lookup(result.fields, "success", JNull)))
  }

  /** `1 if result.get('success') else 0`: unguarded, so any non-dict raises. */
  function SuccessPoint(result: Json): Result<nat> {
    if !result.JObj? then Raised
    else Ok(if Truthy(Lookup(result.fields, "success", JNull)) then 1 else 0)
  }

  /** The log-collection block of the statistics. */
  function CollectBlock(collect: Json, s: Stats): Result<Stats> {
    var collected :- Succeeded(collect);
    if !collected then Ok(s)
    else
      var agg := Lookup(collect.fields, "aggregated_stats", EmptyObj);
      if !agg.JObj? then Raised
      else Ok(s.(logFiles := Lookup(agg.fields, "processed_files", JInt(0)),
                 totalLines := Lookup(agg.fields, "total_log_lines", JInt(0)),
                 errorLines := Lookup(agg.fields, "error_log_lines", JInt(0))))
  }

  /** The crawler block of the statistics. */
  function CrawlerBlock(crawler: Json, s: Stats): Result<Stats> {
    var crawled :- Succeeded(crawler);
    if !crawled then Ok(s)
    else
      var n :- Len(Lookup(crawler.fields, "tables_created", JArr([])));
      Ok(s.(tablesCreated := n))
  }

  /** The Athena block of the statistics. */
  function AthenaBlock(athena: Json, s: Stats): Result<Stats> {
    var queried :- Succeeded(athena);
    if !queried then Ok(s)
    else Ok(s.(queriesExecuted := Lookup(athena.fields, "successful_queries", JInt(0)),
               rowsAnalyzed := Lookup(athena.fields, "total_rows_analyzed", JInt(0))))
  }

  /** `calculate_log_statistics(log_collect_result, crawler_result, athena_result)` */
  function Statistics(collect: Json, crawler: Json, athena: Json): Result<Stats> {
    var s :- Blocks(collect, crawler, athena);
    var p :- SuccessPoints(collect, crawler, athena);
    Ok(s.(successfulSteps := p))
  }

  /** The three blocks, in stage order. */
  function Blocks(collect: Json, crawler: Json, athena: Json): Result<Stats> {
    var s1 :- CollectBlock(collect, ZeroStats);
    var s2 :- CrawlerBlock(crawler, s1);
    AthenaBlock(athena, s2)
  }

  /** `successful_steps`: the sum of the three success points. */
  function SuccessPoints(collect: Json, crawler: Json, athena: Json): Result<nat> {
    var p1 :- SuccessPoint(collect);
    var p2 :- SuccessPoint(crawler);
    var p3 :- SuccessPoint(athena);
    Ok(p1 + p2 + p3)
  }

  /** The rate `processing_success_rate` stands for. */
  function SuccessRate(s: Stats): Json {
    JFloat(s.successfulSteps, TotalSteps)
  }

  /** Each block of statistics comes only from a stage result reporting
      success, and is zero otherwise; a stage reporting success supplies
      its reported figures; the statistics exist only when all
      three results are dicts, and the success rate counts the successful
      stages out of three. */
  lemma StatisticsMeaning(collect: Json, crawler: Json, athena: Json)
    ensures var r := Statistics(collect, crawler, athena);
      r.Ok? ==> collect.JObj? && crawler.JObj? && athena.JObj?
    ensures var r := Statistics(collect, crawler, athena);
      r.Ok? ==> (r.value.logFiles != JInt(0) || r.value.totalLines != JInt(0) || r.value.errorLines != JInt(0)
                 ==> Succeeded(collect) == Ok(true))
    ensures var r := Statistics(collect, crawler, athena);
      r.Ok? ==> (r.value.tablesCreated != 0 ==> Succeeded(crawler) == Ok(true)
                                                && Len(Lookup(crawler.fields, "tables_created", JArr([]))) == Ok(r.value.tablesCreated))
    ensures var r := Statistics(collect, crawler, athena);
      r.Ok? ==> (r.value.queriesExecuted != JInt(0) || r.value.rowsAnalyzed != JInt(0) ==> Succeeded(athena) == Ok(true))
    ensures var r := Statistics(collect, crawler, athena);
      r.Ok? ==> r.value.successfulSteps <= TotalSteps
                && r.value.successfulSteps == (if Succeeded(collect).value then 1 else 0)
                   + (if Succeeded(crawler).value then 1 else 0) + (if Succeeded(athena).value then 1 else 0)
    ensures var r := Statistics(collect, crawler, athena);
      r.Ok? && collect.JObj? && Succeeded(collect) == Ok(true) ==>
        var agg := Lookup(collect.fields, "aggregated_stats", EmptyObj);
        agg.JObj?
        && r.value.logFiles == Lookup(agg.fields, "processed_files", JInt(0))
        && r.value.totalLines == Lookup(agg.fields, "total_log_lines", JInt(0))
        && r.value.errorLines == Lookup(agg.fields, "error_log_lines", JInt(0))
    ensures var r := Statistics(collect, crawler, athena);
      r.Ok? && crawler.JObj? && Succeeded(crawler) == Ok(true) ==>
        Len(Lookup(crawler.fields, "tables_created", JArr([]))) == Ok(r.value.tablesCreated)
    ensures var r := Statistics(collect, crawler, athena);
      r.Ok? && athena.JObj? && Succeeded(athena) == Ok(true) ==>
        r.value.queriesExecuted == Lookup(athena.fields, "successful_queries", JInt(0))
        && r.value.rowsAnalyzed == Lookup(athena.fields, "total_rows_analyzed", JInt(0))
  {
  }

  /** `calculate_log_statistics`, block by block. */
  method CalculateLogStatistics(collect: Json, crawler: Json, athena: Json) returns (r: Result<Stats>)
    ensures r == Statistics(collect, crawler, athena)
  {
    var stats := FillBlocks(collect, crawler, athena);
    if stats.Raised? {
      return Raised;
    }
    var p := SuccessPoints(collect, crawler, athena);
    if p.Raised? {
      return Raised;
    }
    r := Ok(stats.value.(successfulSteps := p.value));
  }

  /** The three blocks, filled one after the other. */
  method FillBlocks(collect: Json, crawler: Json, athena: Json) returns (r: Result<Stats>)
    ensures r == Blocks(collect, crawler, athena)
  {
    var s1 := FillCollect(collect, ZeroStats);
    if s1.Raised? {
      return Raised;
    }
    var s2 := FillCrawler(crawler, s1.value);
    if s2.Raised? {
      return Raised;
    }
    r := FillAthena(athena, s2.value);
  }

  method FillCollect(collect: Json, s: Stats) returns (r: Result<Stats>)
    ensures r == CollectBlock(collect, s)
  {
    var collected := Succeeded(collect);
    if collected.Raised? {
      return Raised;
    }
    var stats := s;
    if collected.value {
      var agg := Lookup(collect.fields, "aggregated_stats", EmptyObj);
      if !agg.JObj? {
        return Raised;
      }
      stats := stats.(logFiles := Lookup(agg.fields, "processed_files", JInt(0)));
      stats := stats.(totalLines := Lookup(agg.fields, "total_log_lines", JInt(0)));
      stats := stats.(errorLines := Lookup(agg.fields, "error_log_lines", JInt(0)));
    }
    return Ok(stats);
  }

  method FillCrawler(crawler: Json, s: Stats) returns (r: Result<Stats>)
    ensures r == CrawlerBlock(crawler, s)
  {
    var crawled := Succeeded(crawler);
    if crawled.Raised? {
      return Raised;
    }
    var stats := s;
    if crawled.value {
      var n := Len(Lookup(crawler.fields, "tables_created", JArr([])));
      if n.Raised? {
        return Raised;
      }
      stats := stats.(tablesCreated := n.value);
    }
    return Ok(stats);
  }

  method FillAthena(athena: Json, s: Stats) returns (r: Result<Stats>)
    ensures r == AthenaBlock(athena, s)
  {
    var queried := Succeeded(athena);
    if queried.Raised? {
      return Raised;
    }
    var stats := s;
    if queried.value {
      stats := stats.(queriesExecuted := Lookup(athena.fields, "successful_queries", JInt(0)));
      stats := stats.(rowsAnalyzed := Lookup(athena.fields, "total_rows_analyzed", JInt(0)));
    }
    return Ok(stats);
  }

  /** The failure of one stage, when its result is non-empty and does not
      report success. */
  function StageFailure(result: Json, step: string, default: string): Result<seq<Json>> {
    if !Truthy(result) then Ok([])
    else if !result.JObj? then Raised
    else if Truthy(Lookup(result.fields, "success", JNull)) then Ok([])
    else Ok([JObj(map["step" := JStr(step), "error" := Lookup(result.fields, "error", JStr(default)),
                      "details" := result])])
  }

  /** `get_failures(log_collect_result, crawler_result, athena_result)` */
  function Failures(collect: Json, crawler: Json, athena: Json): Result<seq<Json>> {
    var f1 :- StageFailure(collect, "log_collect", "Log collection failed");
    var f2 :- StageFailure(crawler, "glue_crawler", "Glue crawler failed");
    var f3 :- StageFailure(athena, "athena_query", "Athena query failed");
    Ok(f1 + f2 + f3)
  }

  /** A stage result is non-empty and unsuccessful. */
  predicate Failing(result: Json) {
    result.JObj? && result.fields != map[] && !Truthy(Lookup(result.fields, "success", JNull))
  }

  /** The steps of the failing stages, in the fixed stage order. */
  function FailingSteps(collect: Json, crawler: Json, athena: Json): seq<string> {
    (if Failing(collect) then ["log_collect"] else [])
    + (if Failing(crawler) then ["glue_crawler"] else [])
    + (if Failing(athena) then ["athena_query"] else [])
  }

  /** One failure per non-empty unsuccessful stage, in stage order, never
      more than three; together with the successful stages they account for
      every non-empty result. */
  lemma FailuresMeaning(collect: Json, crawler: Json, athena: Json)
    ensures var r := Failures(collect, crawler, athena);
      r.Ok? ==> |r.value| == |FailingSteps(collect, crawler, athena)| <= 3
                && forall i :: 0 <= i < |r.value| ==> Field(r.value[i], "step") == JStr(FailingSteps(collect, crawler, athena)[i])
    ensures var s := Statistics(collect, crawler, athena);
      s.Ok? ==> Failures(collect, crawler, athena).Ok?
                && s.value.successfulSteps + |Failures(collect, crawler, athena).value|
                   == (if Truthy(collect) then 1 else 0) + (if Truthy(crawler) then 1 else 0) + (if Truthy(athena) then 1 else 0)
  {
    FailuresSteps(collect, crawler, athena);
    StageFailureMeaning(collect, "log_collect", "Log collection failed");
    StageFailureMeaning(crawler, "glue_crawler", "Glue crawler failed");
    StageFailureMeaning(athena, "athena_query", "Athena query failed");
  }

  /** The failure records name the failing stages, in stage order. */
  lemma FailuresSteps(collect: Json, crawler: Json, athena: Json)
    ensures var r := Failures(collect, crawler, athena);
      r.Ok? ==> |r.value| == |FailingSteps(collect, crawler, athena)| <= 3
                && forall i :: 0 <= i < |r.value| ==> Field(r.value[i], "step") == JStr(FailingSteps(collect, crawler, athena)[i])
  {
    StageFailureMeaning(collect, "log_collect", "Log collection failed");
    StageFailureMeaning(crawler, "glue_crawler", "Glue crawler failed");
    StageFailureMeaning(athena, "athena_query", "Athena query failed");
    var r := Failures(collect, crawler, athena);
    if r.Ok? {
      var f1 := StageFailure(collect, "log_collect", "Log collection failed").value;
      var f2 := StageFailure(crawler, "glue_crawler", "Glue crawler failed").value;
      var f3 := StageFailure(athena, "athena_query", "Athena query failed").value;
      assert r.value == f1 + f2 + f3;
      var steps := FailingSteps(collect, crawler, athena);
      assert |r.value| == |steps|;
      forall i | 0 <= i < |r.value|
        ensures Field(r.value[i], "step") == JStr(steps[i])
      {
        if i < |f1| {
          assert r.value[i] == f1[i];
        } else if i < |f1| + |f2| {
          assert r.value[i] == f2[i - |f1|];
        } else {
          assert r.value[i] == f3[i - |f1| - |f2|];
        }
      }
    }
  }

  /** One stage: a failure record exactly when the stage is failing, named
      after the stage; a stage whose success point is defined either
      succeeded or failed when it is non-empty, and did neither when empty. */
  lemma StageFailureMeaning(result: Json, step: string, default: string)
    ensures var f := StageFailure(result, step, default);
      f.Ok? ==> |f.value| == (if Failing(result) then 1 else 0)
                && forall i :: 0 <= i < |f.value| ==> Field(f.value[i], "step") == JStr(step)
    ensures SuccessPoint(result).Ok? ==>
      StageFailure(result, step, default).Ok?
      && SuccessPoint(result).value + |StageFailure(result, step, default).value| == (if Truthy(result) then 1 else 0)
  {
  }

  /** `get_failures`, appending stage by stage. */
  method GetFailures(collect: Json, crawler: Json, athena: Json) returns (r: Result<seq<Json>>)
    ensures r == Failures(collect, crawler, athena)
  {
    var f := StageFailure(collect, "log_collect", "Log collection failed");
    if f.Raised? {
      return Raised;
    }
    var failures := f.value;
    f := StageFailure(crawler, "glue_crawler", "Glue crawler failed");
    if f.Raised? {
      return Raised;
    }
    failures := failures + f.value;
    f := StageFailure(athena, "athena_query", "Athena query failed");
    if f.Raised? {
      return Raised;
    }
    failures := failures + f.value;
    return Ok(failures);
  }

  /** The parts of the evidence note: the status, then the file, line and
      table counts when there are statistics, then the error when given. */
  function NoteParts(status: Json, stats: Option<Stats>, error: string): (parts: seq<string>)
    ensures |parts| == 1 + (if stats.Some? then 2 else 0) + (if error != [] then 1 else 0)
    ensures parts[0] == "ログ処理完了: " + Show(status)
    ensures stats.Some? ==> parts[1] == Show(stats.value.logFiles) + "ファイル, " + Show(stats.value.totalLines) + "行処理"
                            && parts[2] == NatToString(stats.value.tablesCreated) + "テーブル作成"
    ensures error != [] ==> parts[|parts| - 1] == "エラー: " + error
  {
    ["ログ処理完了: " + Show(status)]
    + (if stats.Some? then [Show(stats.value.logFiles) + "ファイル, " + Show(stats.value.totalLines) + "行処理",
                            NatToString(stats.value.tablesCreated) + "テーブル作成"] else [])
    + (if error != [] then ["エラー: " + error] else [])
  }

  /** `create_evidence(batch_id, success, statistics, status, error)`;
      `None` stands for the empty statistics of the error path. */
  function EvidenceJson(batchId: Json, success: bool, stats: Option<Stats>, status: Json, error: string, now: string): (e: Json)
    ensures Field(e, "step") == JStr("finalize") && Field(e, "ok") == JBool(success)
    ensures stats.Some? ==> Field(Field(e, "load"), "inserted_rows") == stats.value.rowsAnalyzed
    ensures Field(Field(e, "load"), "dropped_rows") == JInt(0)
    ensures Field(e, "note") == JStr(Join(NoteParts(status, stats, error), " | "))
  {
    var s := if stats.Some? then stats.value else ZeroStats;
    JObj(map[
      "batch_id" := batchId,
      "test_id" := JStr(""),
      "flow" := JStr("log-aggregation-athena-pipeline"),
      "step" := JStr("finalize"),
      "input" := JObj(map["log_files" := s.logFiles, "batch_id" := batchId]),
      "output" := JObj(map["tables_created" := JInt(s.tablesCreated), "rows_analyzed" := s.rowsAnalyzed,
                           "success_rate" := if stats.Some? then SuccessRate(s) else JInt(0)]),
      "load" := JObj(map["table" := JStr("consolidated_log_summary"), "inserted_rows" := s.rowsAnalyzed,
                         "dropped_rows" := JInt(0), "reason" := JStr("ログ処理完了: " + Show(status))]),
      "ok" := JBool(success),
      "ts" := JStr(now),
      "note" := JStr(Join(NoteParts(status, stats, error), " | "))])
  }

  function StatsJson(s: Stats): Json {
    JObj(map["log_files_processed" := s.logFiles, "total_log_lines" := s.totalLines, "error_log_lines" := s.errorLines,
             "tables_created" := JInt(s.tablesCreated), "athena_queries_executed" := s.queriesExecuted,
             "rows_analyzed" := s.rowsAnalyzed, "processing_success_rate" := SuccessRate(s)])
  }

  /** The response of a run that raised nothing; the verdict is the
      workflow's status alone. */
  function SuccessResponse(batchId: Json, status: Json, stats: Stats, failures: seq<Json>, now: string): (r: Json)
    ensures Field(r, "statusCode") == JInt(200)
    ensures Field(r, "overall_success") == JBool(status == JStr("SUCCESS"))
    ensures Field(Field(r, "evidence"), "ok") == Field(r, "overall_success")
    ensures Field(Field(r, "summary"), "failures") == JArr(failures)
  {
    var overall := status == JStr("SUCCESS");
    JObj(map["statusCode" := JInt(200), "batch_id" := batchId, "overall_success" := JBool(overall), "status" := status,
             "summary" := JObj(map["batch_id" := batchId, "status" := status, "statistics" := StatsJson(stats),
                                   "failures" := JArr(failures), "completed_at" := JStr(now)]),
             "evidence" := EvidenceJson(batchId, overall, Some(stats), status, "", now)])
  }

  /** The response of the exception handler: a failed evidence whose note
      is the `ERROR` status followed by the error. */
  function ErrorResponse(batchId: Json, errText: string, now: string): (r: Json)
    ensures Field(r, "statusCode") == JInt(500) && Field(r, "overall_success") == JBool(false)
    ensures Field(Field(r, "evidence"), "ok") == JBool(false)
    ensures Field(Field(r, "evidence"), "note")
            == JStr(Join(["ログ処理完了: ERROR", "エラー: ログ処理完了エラー: " + errText], " | "))
  {
    var message := "ログ処理完了エラー: " + errText;
    assert "ログ処理完了: " + Show(JStr("ERROR")) == "ログ処理完了: ERROR";
    assert "エラー: " + message == "エラー: ログ処理完了エラー: " + errText;
    assert NoteParts(JStr("ERROR"), None, message) == ["ログ処理完了: ERROR", "エラー: ログ処理完了エラー: " + errText];
    JObj(map["statusCode" := JInt(500), "batch_id" := batchId, "overall_success" := JBool(false),
             "error" := JStr(message),
             "evidence" := EvidenceJson(batchId, false, None, JStr("ERROR"), message, now)])
  }

  /** `lambda_handler(event, context)` */
  function Finalize(event: map<string, Json>, now: string, errText: string): Json {
    var batchId := Lookup(event, "batch_id", JNull);
    var collect := Lookup(event, "log_collect_result", EmptyObj);
    var crawler := Lookup(event, "crawler_result", EmptyObj);
    var athena := Lookup(event, "athena_result", EmptyObj);
    var status := Lookup(event, "status", JStr("UNKNOWN"));
    match (Statistics(collect, crawler, athena), Failures(collect, crawler, athena))
    case (Ok(stats), Ok(failures)) => SuccessResponse(batchId, status, stats, failures, now)
    case _ => ErrorResponse(batchId, errText, now)
  }

  /** The verdict is the workflow's status alone: success exactly when it
      is `SUCCESS`.  The call answers 200 exactly when the statistics could
      be computed, and otherwise 500 with a failed evidence. */
  lemma FinalizeVerdict(event: map<string, Json>, now: string, errText: string)
    ensures var r := Finalize(event, now, errText);
      Field(r, "statusCode") == JInt(200) ==>
        Field(r, "overall_success") == JBool(Lookup(event, "status", JStr("UNKNOWN")) == JStr("SUCCESS"))
        && Field(Field(r, "evidence"), "ok") == Field(r, "overall_success")
    ensures var r := Finalize(event, now, errText);
      var collect, crawler, athena := Lookup(event, "log_collect_result", EmptyObj),
        Lookup(event, "crawler_result", EmptyObj), Lookup(event, "athena_result", EmptyObj);
      (Field(r, "statusCode") == JInt(200) <==> Statistics(collect, crawler, athena).Ok?)
      && (Field(r, "statusCode") == JInt(500) <==> Statistics(collect, crawler, athena).Raised?)
    ensures var r := Finalize(event, now, errText);
      Field(r, "statusCode") == JInt(500) ==>
        Field(r, "overall_success") == JBool(false) && Field(Field(r, "evidence"), "ok") == JBool(false)
  {
    var collect, crawler, athena := Lookup(event, "log_collect_result", EmptyObj),
      Lookup(event, "crawler_result", EmptyObj), Lookup(event, "athena_result", EmptyObj);
    FailuresMeaning(collect, crawler, athena);
  }

  /** `lambda_handler`, calling the two step-by-step helpers. */
  method LambdaHandler(event: map<string, Json>, now: string, errText: string) returns (r: Json)
    ensures r == Finalize(event, now, errText)
  {
    var batchId := Lookup(event, "batch_id", JNull);
    var collect := Lookup(event, "log_collect_result", EmptyObj);
    var crawler := Lookup(event, "crawler_result", EmptyObj);
    var athena := Lookup(event, "athena_result", EmptyObj);
    var status := Lookup(event, "status", JStr("UNKNOWN"));
    var stats := CalculateLogStatistics(collect, crawler, athena);
    var failures := GetFailures(collect, crawler, athena);
    if stats.Ok? && failures.Ok? {
      r := SuccessResponse(batchId, status, stats.value, failures.value, now);
    } else {
      r := ErrorResponse(batchId, errText, now);
    }
  }
}
