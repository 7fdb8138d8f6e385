/** The JSON flow's writer, `lambda_dynamodb_writer`: the processed items
    are written to a DynamoDB table in batches of 25, every item once, and
    the share written decides between full success (200) and partial
    success (206).

    The table is not modelled: `put` says whether `put_item` accepted an
    item (`None`) or raised (`Some(message)`).  The clock (`nowEpoch` for
    the TTL, `now` for the evidence), `json.dumps` and the text of the
    exceptions are parameters too. */
module DynamoWriter {
  import opened Results
  import opened Text
  import opened JsonValue

  /** DynamoDB's batch-write limit, the size of each batch. */
  const ChunkSize: nat := 25
  /** How many failed items the response lists. */
  const FailedShown: nat := 5
  /** The item lifetime: 30 days in seconds. */
  const TtlSeconds: nat := 30 * 24 * 60 * 60

  /** What the writer depends on outside the event. */
  datatype Env = Env(
    nowEpoch: nat,
    dumps: Json -> string,
    put: map<string, Json> -> Option<string>,
    buildError: Json -> string)

  /** An item the code can turn into a DynamoDB item without raising. */
  predicate Buildable(item: Json) {
    item.JObj? && "id" in item.fields && "batch_id" in item.fields && "timestamp" in item.fields
    && "data" in item.fields && item.fields["data"].JObj? && "processed_at" in item.fields
  }

  /** The DynamoDB item written for a processed item; the text fields default
      to "", the whole data object is kept as JSON text, and the TTL is 30
      days after now. */
  function DynamoItem(item: Json, env: Env): (d: map<string, Json>)
    requires Buildable(item)
    ensures d.Keys == {"id", "batch_id", "timestamp", "name", "category", "description", "metadata", "processed_at", "ttl"}
    ensures d["id"] == item.fields["id"] && d["batch_id"] == item.fields["batch_id"]
    ensures d["name"] == Lookup(item.fields["data"].fields, "name", JStr(""))
    ensures d["ttl"] == JInt(env.nowEpoch + TtlSeconds)
  {
    var data := item.fields["data"].fields;
    map[
      "id" := item.fields["id"],
      "batch_id" := item.fields["batch_id"],
      "timestamp" := item.fields["timestamp"],
      "name" := Lookup(data, "name", JStr("")),
      "category" := Lookup(data, "category", JStr("")),
      "description" := Lookup(data, "description", JStr("")),
      "metadata" := JStr(env.dumps(item.fields["data"])),
      "processed_at" := item.fields["processed_at"],
      "ttl" := JInt(env.nowEpoch + TtlSeconds)]
  }

  /** One item's attempt: `None` when written, else the exception's text. */
  function Attempt(item: Json, env: Env): (r: Option<string>)
    ensures !Buildable(item) ==> r == Some(env.buildError(item))
    ensures Buildable(item) ==> r == env.put(DynamoItem(item, env))
  {
    if !Buildable(item) then Some(env.buildError(item)) else env.put(DynamoItem(item, env))
  }

  function FailedEntry(item: Json, message: string): Json {
    JObj(map["item" := item, "error" := JStr(message)])
  }

  /** What one item adds to `failed_items`. */
  function FailedPart(item: Json, env: Env): (fs: seq<Json>)
    ensures Attempt(item, env).None? ==> fs == []
    ensures Attempt(item, env).Some? ==> fs == [FailedEntry(item, Attempt(item, env).value)]
  {
    var a := Attempt(item, env);
    if a.Some? then [FailedEntry(item, a.value)] else []
  }

  /** The number of items written, over the items attempted in order. */
  function Successes(items: seq<Json>, env: Env): nat
    decreases |items|
  {
    if items == [] then 0
    else Successes(items[..|items| - 1], env) + (if Attempt(items[|items| - 1], env).None? then 1 else 0)
  }

  /** `failed_items`: one entry per item not written, in order. */
  function Failures(items: seq<Json>, env: Env): seq<Json>
    decreases |items|
  {
    if items == [] then []
    else
      Failures(items[..|items| - 1], env) + FailedPart(items[|items| - 1], env)
  }

  /** Every item is either written or listed as failed, never both. */
  lemma {:induction false} Accounting(items: seq<Json>, env: Env)
    ensures Successes(items, env) + |Failures(items, env)| == |items|
    ensures forall f :: f in Failures(items, env) ==>
      (exists item :: item in items && Attempt(item, env).Some? && f == FailedEntry(item, Attempt(item, env).value))
    decreases |items|
  {
    if items != [] {
      var init := items[..|items| - 1];
      Accounting(init, env);
      forall f | f in Failures(items, env)
        ensures exists item :: item in items && Attempt(item, env).Some? && f == FailedEntry(item, Attempt(item, env).value)
      {
        if f in Failures(init, env) {
          var item :| item in init && Attempt(item, env).Some? && f == FailedEntry(item, Attempt(item, env).value);
          assert item in items;
        } else {
          assert items[|items| - 1] in items;
        }
      }
    }
  }

  function Min(a: nat, b: nat): nat {
    if a <= b then a else b
  }

  /** The batches `range(0, n, 25)` cuts the items into. */
  function Chunks(items: seq<Json>): (cs: seq<seq<Json>>)
    ensures forall k :: 0 <= k < |cs| ==> 1 <= |cs[k]| <= ChunkSize
    decreases |items|
  {
    if items == [] then []
    else if |items| <= ChunkSize then [items]
    else [items[..ChunkSize]] + Chunks(items[ChunkSize..])
  }

  function Concat(cs: seq<seq<Json>>): seq<Json>
    decreases |cs|
  {
    if cs == [] then [] else Concat(cs[..|cs| - 1]) + cs[|cs| - 1]
  }

  lemma {:induction false} ConcatPrepend(c: seq<Json>, cs: seq<seq<Json>>)
    ensures Concat([c] + cs) == c + Concat(cs)
    decreases |cs|
  {
    if cs != [] {
      ConcatPrepend(c, cs[..|cs| - 1]);
      assert ([c] + cs)[..|cs|] == [c] + cs[..|cs| - 1];
    }
  }

  /** The batches put back together are the items, in order: every item is
      attempted exactly once, and every batch but the last is full. */
  lemma ChunksMeaning(items: seq<Json>)
    ensures Concat(Chunks(items)) == items
    ensures |Chunks(items)| == (|items| + ChunkSize - 1) / ChunkSize
    ensures forall k :: 0 <= k < |Chunks(items)| - 1 ==> |Chunks(items)[k]| == ChunkSize
  {
    ChunksConcat(items);
    ChunksSizes(items);
  }

  /** The chunks concatenate back to the items. */
  lemma {:induction false} ChunksConcat(items: seq<Json>)
    ensures Concat(Chunks(items)) == items
    decreases |items|
  {
    if |items| > ChunkSize {
      ChunksConcat(items[ChunkSize..]);
      ConcatPrepend(items[..ChunkSize], Chunks(items[ChunkSize..]));
      assert items[..ChunkSize] + items[ChunkSize..] == items;
    } else if items != [] {
      assert Concat([items]) == Concat([]) + items;
    }
  }

  /** There are ⌈n/25⌉ chunks and every one before the last is full. */
  lemma {:induction false} ChunksSizes(items: seq<Json>)
    ensures |Chunks(items)| == (|items| + ChunkSize - 1) / ChunkSize
    ensures forall k :: 0 <= k < |Chunks(items)| - 1 ==> |Chunks(items)[k]| == ChunkSize
    decreases |items|
  {
    if |items| > ChunkSize {
      ChunksSizes(items[ChunkSize..]);
    }
  }

  /** The batch starting at `start` in the loop of `lambda_handler`. */
  lemma {:induction false} ChunkAt(items: seq<Json>, c: nat)
    requires c * ChunkSize < |items|
    ensures c < |Chunks(items)|
    ensures Chunks(items)[c] == items[c * ChunkSize .. Min(c * ChunkSize + ChunkSize, |items|)]
    decreases c
  {
    if c > 0 {
      assert |items| > ChunkSize;
      var rest := items[ChunkSize..];
      ChunkAt(rest, c - 1);
      assert rest[(c - 1) * ChunkSize .. Min((c - 1) * ChunkSize + ChunkSize, |rest|)]
          == items[c * ChunkSize .. Min(c * ChunkSize + ChunkSize, |items|)];
    }
  }

  lemma ChunksNext(items: seq<Json>, c: nat, start: nat, end: nat)
    requires start == c * ChunkSize < |items| && end == Min(start + ChunkSize, |items|)
    ensures c < |Chunks(items)|
    ensures Chunks(items)[..c + 1] == Chunks(items)[..c] + [items[start..end]]
  {
    ChunkAt(items, c);
  }

  /** Only starts below the length begin a batch. */
  lemma {:induction false} ChunkStart(items: seq<Json>, c: nat)
    requires c < |Chunks(items)|
    ensures c * ChunkSize < |items|
    decreases c
  {
    if c > 0 {
      ChunkStart(items[ChunkSize..], c - 1);
    }
  }

  lemma SuccessesNext(items: seq<Json>, k: nat, env: Env)
    requires k < |items|
    ensures Successes(items[..k + 1], env) == Successes(items[..k], env) + (if Attempt(items[k], env).None? then 1 else 0)
    ensures Failures(items[..k + 1], env) == Failures(items[..k], env) + FailedPart(items[k], env)
  {
    assert items[..k + 1][..k] == items[..k];
  }

  /** One `with table.batch_writer()` block: the items `start` to `end`,
      in order. */
  method WriteBatch(items: seq<Json>, start: nat, end: nat, env: Env, successIn: nat, failedIn: seq<Json>)
    returns (successCount: nat, failedItems: seq<Json>)
    requires start <= end <= |items|
    requires successIn == Successes(items[..start], env) && failedIn == Failures(items[..start], env)
    ensures successCount == Successes(items[..end], env) && failedItems == Failures(items[..end], env)
  {
    successCount, failedItems := successIn, failedIn;
    for k := start to end
      invariant successCount == Successes(items[..k], env)
      invariant failedItems == Failures(items[..k], env)
    {
      successCount, failedItems := WriteItem(items, k, env, successCount, failedItems);
    }
  }

  /** One item of the block: attempt it and count the outcome. */
  method WriteItem(items: seq<Json>, k: nat, env: Env, successIn: nat, failedIn: seq<Json>)
    returns (successCount: nat, failedItems: seq<Json>)
    requires k < |items|
    requires successIn == Successes(items[..k], env) && failedIn == Failures(items[..k], env)
    ensures successCount == Successes(items[..k + 1], env) && failedItems == Failures(items[..k + 1], env)
  {
    var outcome := PutItem(items[k], env);
    SuccessesNext(items, k, env);
    successCount := successIn + (if outcome.None? then 1 else 0);
    failedItems := failedIn + (if outcome.None? then [] else [FailedEntry(items[k], outcome.value)]);
  }

  /** The `try` block for one item: build the DynamoDB item, then put it. */
  method PutItem(item: Json, env: Env) returns (outcome: Option<string>)
    ensures outcome == Attempt(item, env)
  {
    if !Buildable(item) {
      return Some(env.buildError(item));
    }
    var dynamoItem := DynamoItem(item, env);
    outcome := env.put(dynamoItem);
  }

  /** The batched write loop of `lambda_handler`: the items go out in the
      batches `Chunks` describes, and the counts are those of the items in
      order. */
  method WriteBatches(items: seq<Json>, env: Env)
    returns (successCount: nat, failedItems: seq<Json>, ghost batches: seq<seq<Json>>)
    ensures successCount == Successes(items, env) && failedItems == Failures(items, env)
    ensures batches == Chunks(items)
  {
    successCount, failedItems, batches := 0, [], [];
    var i: nat := 0;
    ghost var c, done: nat := 0, 0;
    while i < |items|
      invariant i == c * ChunkSize && c <= |Chunks(items)|
      invariant done == if i < |items| then i else |items|
      invariant successCount == Successes(items[..done], env) && failedItems == Failures(items[..done], env)
      invariant batches == Chunks(items)[..c]
      decreases |items| - i
    {
      var end := Min(i + ChunkSize, |items|);
      ChunksNext(items, c, i, end);
      var batch := items[i..end];
      batches := batches + [batch];
      successCount, failedItems := WriteBatch(items, i, end, env, successCount, failedItems);
      i, c, done := i + ChunkSize, c + 1, end;
    }
    assert items[..done] == items;
    if c < |Chunks(items)| {
      ChunkStart(items, c);
    }
  }

  /** `processed_items` as the loop sees it: a list gives its elements and a
      string its characters; any other value makes `len` or the slicing
      raise. */
  function Items(processed: Json): Result<seq<Json>> {
    match processed
    case JArr(a) => Ok(a)
    case JStr(s) => Ok(Chars(s))
    case _ => Raised
  }

  /** Full success: at least nine items in ten written. */
  predicate Overall(successCount: nat, total: nat) {
    total > 0 && 10 * successCount >= 9 * total
  }

  /** The evidence note: the verdict, then the counts when there are any,
      then the table when its name is non-empty. */
  function Note(success: bool, counts: Option<(nat, nat, nat)>, table: Json): (note: string)
    ensures counts.None? ==> note == "DynamoDB書き込み" + (if success then "成功" else "失敗")
                                     + (if Truthy(table) then " → " + Show(table) else "")
  {
    var head := "DynamoDB書き込み" + (if success then "成功" else "失敗");
    var countPart := if counts.Some? then ": " + NatToString(counts.value.1) + "/" + NatToString(counts.value.0) + "件" else "";
    var tablePart := if Truthy(table) then " → " + Show(table) else "";
    assert counts.None? ==> head + countPart == head;
    head + countPart + tablePart
  }

  /** `create_evidence(batch_id, 'dynamodb_write', success, details)`; the
      counts are absent on the failure paths, where `table` is "". */
  function EvidenceJson(batchId: Json, success: bool, counts: Option<(nat, nat, nat)>, table: Json, now: string): (e: Json)
    ensures Field(e, "ok") == JBool(success) && Field(e, "step") == JStr("dynamodb_write")
    ensures counts.Some? ==> (Field(Field(e, "load"), "inserted_rows") == JInt(counts.value.1)
                              && Field(Field(e, "load"), "dropped_rows") == JInt(counts.value.2)
                              && Field(Field(e, "input"), "items") == JInt(counts.value.0)
                              && Field(Field(e, "output"), "items") == JInt(counts.value.1))
    ensures Field(e, "note") == JStr(Note(success, counts, table))
  {
    var c := if counts.Some? then counts.value else (0, 0, 0);
    JObj(map[
      "batch_id" := batchId,
      "test_id" := JStr(""),
      "flow" := JStr("json-to-dynamodb-pipeline"),
      "step" := JStr("dynamodb_write"),
      "input" := JObj(map["items" := JInt(c.0)]),
      "output" := JObj(map["items" := JInt(c.1)]),
      "load" := JObj(map["table" := table, "inserted_rows" := JInt(c.1), "dropped_rows" := JInt(c.2),
                         "reason" := JStr("DynamoDB batch write operation")]),
      "ok" := JBool(success),
      "ts" := JStr(now),
      "note" := JStr(Note(success, counts, table))])
  }

  function InvalidResponse(batchId: Json, now: string): (r: Json)
    ensures Field(r, "statusCode") == JInt(400) && Field(r, "success") == JBool(false)
  {
    JObj(map["statusCode" := JInt(400), "batch_id" := batchId, "success" := JBool(false),
             "error" := JStr("処理対象データがありません"),
             "evidence" := EvidenceJson(batchId, false, None, JStr(""), now)])
  }

  function ErrorResponse(batchId: Json, errText: string, now: string): (r: Json)
    ensures Field(r, "statusCode") == JInt(500) && Field(r, "success") == JBool(false)
  {
    JObj(map["statusCode" := JInt(500), "batch_id" := batchId, "success" := JBool(false),
             "error" := JStr("DynamoDB書き込みエラー: " + errText),
             "evidence" := EvidenceJson(batchId, false, None, JStr(""), now)])
  }

  /** The response fields present whether or not some item failed. */
  function Summary(batchId: Json, table: Json, total: nat, successCount: nat, failedCount: nat, now: string)
    : (m: map<string, Json>)
    ensures m.Keys == {"statusCode", "batch_id", "success", "total_items", "success_count", "failed_count", "table_name", "evidence"}
    ensures m["statusCode"] == JInt(if Overall(successCount, total) then 200 else 206)
    ensures m["success"] == JBool(Overall(successCount, total))
    ensures m["total_items"] == JInt(total) && m["success_count"] == JInt(successCount)
    ensures m["failed_count"] == JInt(failedCount)
    ensures Field(Field(m["evidence"], "load"), "inserted_rows") == JInt(successCount)
    ensures Field(Field(m["evidence"], "load"), "dropped_rows") == JInt(failedCount)
  {
    var overall := Overall(successCount, total);
    map[
      "statusCode" := JInt(if overall then 200 else 206),
      "batch_id" := batchId,
      "success" := JBool(overall),
      "total_items" := JInt(total),
      "success_count" := JInt(successCount),
      "failed_count" := JInt(failedCount),
      "table_name" := table,
      "evidence" := EvidenceJson(batchId, overall, Some((total, successCount, failedCount)), table, now)]
  }

  function WrittenResponse(batchId: Json, table: Json, total: nat, successCount: nat, failed: seq<Json>, now: string): (r: Json)
    ensures Field(r, "statusCode") == JInt(if Overall(successCount, total) then 200 else 206)
    ensures Field(r, "success") == JBool(Overall(successCount, total))
    ensures Field(r, "total_items") == JInt(total) && Field(r, "success_count") == JInt(successCount)
    ensures Field(r, "failed_count") == JInt(|failed|)
    ensures r.JObj? && ("failed_items" in r.fields <==> failed != [])
  {
    var result := Summary(batchId, table, total, successCount, |failed|, now);
    var shown := if |failed| <= FailedShown then failed else failed[..FailedShown];
    JObj(if failed == [] then result else result["failed_items" := JArr(shown)])
  }

  /** `failed_items` shows the first five failures, and the envelope counts
      the written rows as inserted and the failures as dropped. */
  lemma WrittenResponseFailures(batchId: Json, table: Json, total: nat, successCount: nat, failed: seq<Json>, now: string)
    ensures var r := WrittenResponse(batchId, table, total, successCount, failed, now);
      && (failed != [] ==> Field(r, "failed_items") == JArr(if |failed| <= FailedShown then failed else failed[..FailedShown]))
      && Field(Field(Field(r, "evidence"), "load"), "inserted_rows") == JInt(successCount)
      && Field(Field(Field(r, "evidence"), "load"), "dropped_rows") == JInt(|failed|)
  {
    var result := Summary(batchId, table, total, successCount, |failed|, now);
    assert "evidence" in result;
  }

  function BatchId(event: map<string, Json>): Json {
    Lookup(event, "batch_id", JNull)
  }

  function Processed(event: map<string, Json>): Json {
    Lookup(event, "processed_items", JArr([]))
  }

  function TableName(event: map<string, Json>): Json {
    Lookup(event, "table_name", JStr("json-processing-table"))
  }

  /** `lambda_handler(event, context)` */
  function Write(event: map<string, Json>, env: Env, errText: string, now: string): Json {
    var batchId, processed, table := BatchId(event), Processed(event), TableName(event);
    if !Truthy(processed) then InvalidResponse(batchId, now)
    else
      match Items(processed)
      case Raised => ErrorResponse(batchId, errText, now)
      case Ok(items) => WrittenResponse(batchId, table, |items|, Successes(items, env), Failures(items, env), now)
  }

  /** No items gives 400 and nothing is attempted; only then is the status
      400. */
  lemma WriteInvalid(event: map<string, Json>, env: Env, errText: string, now: string)
    ensures var r := Write(event, env, errText, now);
      Field(r, "statusCode") == JInt(400) <==> !Truthy(Processed(event))
  {
    var processed := Processed(event);
    if Truthy(processed) {
      match Items(processed)
      case Raised =>
        assert Write(event, env, errText, now) == ErrorResponse(BatchId(event), errText, now);
      case Ok(items) =>
        var r := WrittenResponse(BatchId(event), TableName(event), |items|, Successes(items, env), Failures(items, env), now);
        assert Write(event, env, errText, now) == r;
    }
  }

  /** A list of items gives 200 or 206, with written plus failed equal to
      the total and full success exactly when nine in ten were written. */
  lemma WriteMeaning(event: map<string, Json>, env: Env, errText: string, now: string)
    ensures var r := Write(event, env, errText, now);
      Processed(event).JArr? && Processed(event).items != [] ==>
        var items := Processed(event).items;
        && Field(r, "total_items") == JInt(|items|)
        && Field(r, "success_count") == JInt(Successes(items, env))
        && Field(r, "failed_count") == JInt(|items| - Successes(items, env))
        && (Field(r, "success") == JBool(true) <==> 10 * Successes(items, env) >= 9 * |items|)
        && (Field(r, "statusCode") == JInt(200) <==> 10 * Successes(items, env) >= 9 * |items|)
  {
    var processed := Processed(event);
    if processed.JArr? && processed.items != [] {
      var items := processed.items;
      Accounting(items, env);
      WriteList(event, env, errText, now);
    }
  }

  /** A non-empty list of items is written and answered with its counts. */
  lemma WriteList(event: map<string, Json>, env: Env, errText: string, now: string)
    requires Processed(event).JArr? && Processed(event).items != []
    ensures var items := Processed(event).items;
      Write(event, env, errText, now)
      == WrittenResponse(BatchId(event), TableName(event), |items|, Successes(items, env), Failures(items, env), now)
  {
    assert Items(Processed(event)) == Ok(Processed(event).items);
  }

  /** `lambda_handler`, with the batched loop. */
  method LambdaHandler(event: map<string, Json>, env: Env, errText: string, now: string) returns (r: Json)
    ensures r == Write(event, env, errText, now)
  {
    var batchId, processed, table := BatchId(event), Processed(event), TableName(event);
    if !Truthy(processed) {
      return InvalidResponse(batchId, now);
    }
    var items := Items(processed);
    if items.Raised? {
      return ErrorResponse(batchId, errText, now);
    }
    var successCount, failedItems, _ := WriteBatches(items.value, env);
    return WrittenResponse(batchId, table, |items.value|, successCount, failedItems, now);
  }
}
