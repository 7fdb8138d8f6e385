/** The JSON-to-DynamoDB flow's preprocessor, `lambda_json_preprocessor`:
    the input document is validated (a dict holding a non-empty list of
    items, each with a `name` and a `category`), and each item of a valid
    document is wrapped for the writer.

    The clock reading (`stamp` for the default batch id, `now` for the
    timestamps), the identifiers `uuid(i)` drawn for the i-th item and the
    text `errText` of an exception are parameters. */
module JsonPreprocessor {
  import opened Results
  import opened Text
  import opened JsonValue
  import opened StringOrder

  const NotDict: string := "データがDict形式ではありません"
  const MissingItems: string := "'items'キーが存在しません"
  const NotList: string := "'items'がリスト形式ではありません"
  const EmptyItems: string := "'items'が空です"

  /** The fields every item must carry, in checking order. */
  const RequiredFields: seq<string> := ["name", "category"]

  function MissingField(i: nat, field: string): string {
    "アイテム" + NatToString(i) + ": 必須フィールド'" + field + "'が存在しません"
  }

  /** The error about the shape of `items`: at most one, and exactly one of
      missing, not a list and empty when the items are not a non-empty list. */
  function ShapeErrors(data: map<string, Json>): (errors: seq<string>)
    ensures errors == [MissingItems] <==> "items" !in data
    ensures errors == [NotList] <==> "items" in data && !data["items"].JArr?
    ensures errors == [EmptyItems] <==> "items" in data && data["items"] == JArr([])
    ensures errors == [] <==> "items" in data && data["items"].JArr? && data["items"].items != []
  {
    if "items" !in data then [MissingItems]
    else if !data["items"].JArr? then [NotList]
    else if data["items"].items == [] then [EmptyItems]
    else []
  }

  /** `for x in j`: a list's elements, a string's characters, a dict's keys
      (in ascending order here); anything else is not iterable. */
  ghost function Iterate(j: Json): Result<seq<Json>> {
    match j
    case JArr(a) => Ok(a)
    case JStr(s) => Ok(Chars(s))
    case JObj(m) => var keys := SortedSet(m.Keys); Ok(seq(|keys|, i requires 0 <= i < |keys| => JStr(keys[i])))
    case _ => Raised
  }

  /** The errors for the fields of `fields` that item `i` lacks, in order;
      `field not in item` raises on an item that is no container. */
  function MissingErrors(i: nat, item: Json, fields: seq<string>): Result<seq<string>>
    decreases |fields|
  {
    if fields == [] then Ok([])
    else
      var errors :- MissingErrors(i, item, fields[..|fields| - 1]);
      var present :- PyIn(fields[|fields| - 1], item);
      Ok(if present then errors else errors + [MissingField(i, fields[|fields| - 1])])
  }

  /** The errors of the item loop, in index order then field order. */
  function ItemErrors(items: seq<Json>): Result<seq<string>>
    decreases |items|
  {
    if items == [] then Ok([])
    else
      var errors :- ItemErrors(items[..|items| - 1]);
      var more :- MissingErrors(|items| - 1, items[|items| - 1], RequiredFields);
      Ok(errors + more)
  }

  /** `validate_json_data(data)`: the error list (`valid` is its emptiness). */
  ghost function Validate(data: Json): (r: Result<seq<string>>)
    ensures !data.JObj? ==> r == Ok([NotDict])
    ensures r == Ok([]) ==> data.JObj? && "items" in data.fields && data.fields["items"].JArr?
                            && data.fields["items"].items != []
  {
    if !data.JObj? then Ok([NotDict])
    else
      var shape := ShapeErrors(data.fields);
      var items :- Iterate(Lookup(data.fields, "items", JArr([])));
      var more :- ItemErrors(items);
      Ok(shape + more)
  }

  /** The item has both required fields. */
  predicate Complete(item: Json) {
    PyIn("name", item) == Ok(true) && PyIn("category", item) == Ok(true)
  }

  /** The number of required fields a dict item lacks. */
  function Missing(item: map<string, Json>): nat {
    (if "name" in item then 0 else 1) + (if "category" in item then 0 else 1)
  }

  function MissingCount(items: seq<Json>): nat
    requires forall i :: 0 <= i < |items| ==> items[i].JObj?
    decreases |items|
  {
    if items == [] then 0 else MissingCount(items[..|items| - 1]) + Missing(items[|items| - 1].fields)
  }

  lemma ItemMissing(i: nat, item: Json)
    ensures var r := MissingErrors(i, item, RequiredFields);
      r.Ok? ==> (r.value == [] <==> Complete(item))
    ensures item.JObj? ==> MissingErrors(i, item, RequiredFields).Ok?
                           && |MissingErrors(i, item, RequiredFields).value| == Missing(item.fields)
  {
    assert RequiredFields[..1] == ["name"];
    assert RequiredFields[..1][..0] == [];
  }

  /** No item errors exactly when every item has both fields; for dict
      items there is one error per missing (item, field) pair. */
  lemma {:induction false} ItemErrorsMeaning(items: seq<Json>)
    ensures ItemErrors(items) == Ok([]) <==> forall i :: 0 <= i < |items| ==> Complete(items[i])
    ensures (forall i :: 0 <= i < |items| ==> items[i].JObj?) ==>
      ItemErrors(items).Ok? && |ItemErrors(items).value| == MissingCount(items)
    decreases |items|
  {
    if items != [] {
      var n := |items| - 1;
      ItemErrorsMeaning(items[..n]);
      ItemMissing(n, items[n]);
      assert forall i :: 0 <= i < n ==> items[..n][i] == items[i];
      var pre := ItemErrors(items[..n]);
      var last := MissingErrors(n, items[n], RequiredFields);
      if pre.Ok? && last.Ok? {
        assert ItemErrors(items) == Ok(pre.value + last.value);
        if ItemErrors(items) == Ok([]) {
          assert pre.value == [] && last.value == [];
        }
      } else {
        assert ItemErrors(items).Raised?;
      }
    }
  }

  /** A document is valid exactly when it is a dict holding a non-empty
      list of items that all have a `name` and a `category`. */
  lemma ValidIff(data: Json)
    ensures Validate(data) == Ok([]) <==>
      data.JObj? && "items" in data.fields && data.fields["items"].JArr? && data.fields["items"].items != []
      && forall i :: 0 <= i < |data.fields["items"].items| ==> Complete(data.fields["items"].items[i])
  {
    if data.JObj? && "items" in data.fields && data.fields["items"].JArr? {
      ItemErrorsMeaning(data.fields["items"].items);
    }
  }

  /** `validate_json_data`, with its nested loops. */
  method ValidateJsonData(data: Json) returns (r: Result<seq<string>>)
    ensures r == Validate(data)
  {
    if !data.JObj? {
      return Ok([NotDict]);
    }
    var errors := ShapeErrors(data.fields);
    var items := Lookup(data.fields, "items", JArr([]));
    var elements: seq<Json>;
    match items {
      case JArr(a) => elements := a;
      case JStr(s) => elements := Chars(s);
      case JObj(m) =>
        var keys := SortedList(m.Keys);
        elements := seq(|keys|, i requires 0 <= i < |keys| => JStr(keys[i]));
      case _ => return Raised;
    }
    var more := ItemLoop(elements);
    if more.Raised? {
      return Raised;
    }
    return Ok(errors + more.value);
  }

  /** The loop over the items and, inside it, over the required fields. */
  method ItemLoop(items: seq<Json>) returns (r: Result<seq<string>>)
    ensures r == ItemErrors(items)
  {
    var errors: seq<string> := [];
    var i := 0;
    while i < |items|
      invariant 0 <= i <= |items|
      invariant ItemErrors(items[..i]) == Ok(errors)
    {
      assert items[..i + 1][..i] == items[..i];
      var more: seq<string> := [];
      var j := 0;
      while j < |RequiredFields|
        invariant 0 <= j <= |RequiredFields|
        invariant MissingErrors(i, items[i], RequiredFields[..j]) == Ok(more)
      {
        assert RequiredFields[..j + 1][..j] == RequiredFields[..j];
        var present := PyIn(RequiredFields[j], items[i]);
        if present.Raised? {
          ItemRaised(items, i);
          return Raised;
        }
        if !present.value {
          more := more + [MissingField(i, RequiredFields[j])];
        }
        j := j + 1;
      }
      assert RequiredFields[..j] == RequiredFields;
      errors := errors + more;
      i := i + 1;
    }
    assert items[..i] == items;
    return Ok(errors);
  }

  /** An item that is no container makes the whole loop raise. */
  lemma ItemRaised(items: seq<Json>, i: nat)
    requires i < |items| && PyIn("name", items[i]).Raised?
    ensures ItemErrors(items).Raised?
  {
    assert MissingErrors(i, items[i], RequiredFields).Raised? by {
      assert RequiredFields[..1] == ["name"];
      assert RequiredFields[..1][..0] == [];
    }
    ItemRaisedFrom(items, |items|, i);
    assert items[..|items|] == items;
  }

  lemma {:induction false} ItemRaisedFrom(items: seq<Json>, k: nat, i: nat)
    requires i < k <= |items| && MissingErrors(i, items[i], RequiredFields).Raised?
    ensures ItemErrors(items[..k]).Raised?
    decreases k
  {
    if k == i + 1 {
      assert items[..k][..i] == items[..i];
    } else {
      ItemRaisedFrom(items, k - 1, i);
      assert items[..k][..k - 1] == items[..k - 1];
    }
  }

  /** `repr(s)` for the error messages, which hold no backslash, no control
      character and never both kinds of quote. */
  function Repr(s: string): string {
    if '\'' in s && '"' !in s then "\"" + s + "\"" else "'" + s + "'"
  }

  /** `str(errors)` for a list of error messages. */
  function ReprList(errors: seq<string>): string {
    "[" + Join(seq(|errors|, i requires 0 <= i < |errors| => Repr(errors[i])), ", ") + "]"
  }

  /** `create_evidence(batch_id, 'json_preprocess', success, details)`:
      the handler never passes `input` or `output`, so both stay empty, and
      the counts default to 0 on the failure paths. */
  function EvidenceJson(batchId: Json, success: bool, inputCount: nat, outputCount: nat, now: string): (e: Json)
    ensures Field(e, "input") == EmptyObj && Field(e, "output") == EmptyObj && Field(e, "load") == EmptyObj
    ensures Field(e, "ok") == JBool(success) && Field(e, "step") == JStr("json_preprocess")
  {
    JObj(map[
      "batch_id" := batchId,
      "test_id" := JStr(""),
      "flow" := JStr("json-to-dynamodb-pipeline"),
      "step" := JStr("json_preprocess"),
      "input" := EmptyObj,
      "output" := EmptyObj,
      "load" := EmptyObj,
      "ok" := JBool(success),
      "ts" := JStr(now),
      "note" := JStr("JSON前処理" + (if success then "成功" else "失敗") + ": " + NatToString(inputCount) + "→"
                     + NatToString(outputCount) + "件")])
  }

  /** One item wrapped for the writer. */
  function ProcessedItem(id: string, batchId: Json, item: Json, now: string): (p: Json)
    ensures Field(p, "batch_id") == batchId && Field(p, "data") == item && Field(p, "id") == JStr(id)
  {
    JObj(map["id" := JStr(id), "batch_id" := batchId, "timestamp" := JStr(now), "data" := item,
             "processed_at" := JStr(now)])
  }

  function ProcessAll(items: seq<Json>, batchId: Json, now: string, uuid: nat -> string): (ps: seq<Json>)
    ensures |ps| == |items|
    ensures forall i :: 0 <= i < |items| ==> ps[i] == ProcessedItem(uuid(i), batchId, items[i], now)
    ensures forall i :: 0 <= i < |items| ==> Field(ps[i], "batch_id") == batchId && Field(ps[i], "data") == items[i]
                                             && Field(ps[i], "id") == JStr(uuid(i))
  {
    seq(|items|, i requires 0 <= i < |items| => ProcessedItem(uuid(i), batchId, items[i], now))
  }

  function BatchId(event: map<string, Json>, stamp: string): Json {
    Lookup(event, "batch_id", JStr("JSON_" + stamp))
  }

  /** `lambda_handler(event, context)` */
  ghost function Preprocess(event: map<string, Json>, stamp: string, now: string, uuid: nat -> string, errText: string): Json {
    var batchId := BatchId(event, stamp);
    var data := Lookup(event, "input_data", EmptyObj);
    match Validate(data)
    case Raised => ErrorResponse(batchId, errText, now)
    case Ok(errors) =>
      if errors != [] then InvalidResponse(batchId, errors, now)
      else
        var items := data.fields["items"].items;
        SuccessResponse(batchId, items, ProcessAll(items, batchId, now, uuid), now)
  }

  function InvalidResponse(batchId: Json, errors: seq<string>, now: string): (r: Json)
    ensures Field(r, "statusCode") == JInt(400) && Field(r, "success") == JBool(false)
    ensures Field(Field(r, "evidence"), "ok") == JBool(false) && Field(r, "processed_items") == JNull
  {
    JObj(map["statusCode" := JInt(400), "batch_id" := batchId, "success" := JBool(false),
             "error" := JStr("JSON検証失敗: " + ReprList(errors)),
             "evidence" := EvidenceJson(batchId, false, 0, 0, now)])
  }

  function ErrorResponse(batchId: Json, errText: string, now: string): (r: Json)
    ensures Field(r, "statusCode") == JInt(500) && Field(r, "success") == JBool(false)
    ensures Field(Field(r, "evidence"), "ok") == JBool(false) && Field(r, "processed_items") == JNull
  {
    JObj(map["statusCode" := JInt(500), "batch_id" := batchId, "success" := JBool(false),
             "error" := JStr("JSON前処理エラー: " + errText),
             "evidence" := EvidenceJson(batchId, false, 0, 0, now)])
  }

  function SuccessResponse(batchId: Json, items: seq<Json>, processed: seq<Json>, now: string): (r: Json)
    ensures Field(r, "statusCode") == JInt(200) && Field(r, "success") == JBool(true)
    ensures Field(r, "processed_items") == JArr(processed) && Field(r, "item_count") == JInt(|processed|)
    ensures Field(Field(r, "evidence"), "ok") == JBool(true)
  {
    JObj(map["statusCode" := JInt(200), "batch_id" := batchId, "success" := JBool(true),
             "processed_items" := JArr(processed), "item_count" := JInt(|processed|),
             "evidence" := EvidenceJson(batchId, true, |items|, |processed|, now)])
  }

  /** An invalid document gets 400 and a failed evidence with no items; a
      valid one gets one wrapped item per input item, in order, each with
      the batch id and the original item as its data; the evidence never
      carries an input or output block. */
  lemma PreprocessMeaning(event: map<string, Json>, stamp: string, now: string, uuid: nat -> string, errText: string)
    ensures var r := Preprocess(event, stamp, now, uuid, errText);
      var data := Lookup(event, "input_data", EmptyObj);
      Validate(data).Ok? && Validate(data).value != [] ==>
        Field(r, "statusCode") == JInt(400) && Field(r, "success") == JBool(false)
        && Field(Field(r, "evidence"), "ok") == JBool(false) && Field(r, "processed_items") == JNull
    ensures var r := Preprocess(event, stamp, now, uuid, errText);
      var data := Lookup(event, "input_data", EmptyObj);
      Validate(data) == Ok([]) ==>
        var items := data.fields["items"].items;
        Field(r, "statusCode") == JInt(200) && Field(r, "item_count") == JInt(|items|)
        && Field(r, "processed_items").JArr? && |Field(r, "processed_items").items| == |items|
        && forall i :: 0 <= i < |items| ==>
             Field(Field(r, "processed_items").items[i], "data") == items[i]
             && Field(Field(r, "processed_items").items[i], "batch_id") == BatchId(event, stamp)
    ensures var r := Preprocess(event, stamp, now, uuid, errText);
      Field(Field(r, "evidence"), "input") == EmptyObj && Field(Field(r, "evidence"), "output") == EmptyObj
  {
  }

  /** `lambda_handler`, with the loop that wraps the items. */
  method LambdaHandler(event: map<string, Json>, stamp: string, now: string, uuid: nat -> string, errText: string)
    returns (r: Json)
    ensures r == Preprocess(event, stamp, now, uuid, errText)
  {
    var batchId := BatchId(event, stamp);
    var data := Lookup(event, "input_data", EmptyObj);
    var validation := ValidateJsonData(data);
    if validation.Raised? {
      return ErrorResponse(batchId, errText, now);
    }
    if validation.value != [] {
      return InvalidResponse(batchId, validation.value, now);
    }
    var items := data.fields["items"].items;
    var processed: seq<Json> := [];
    var i := 0;
    while i < |items|
      invariant 0 <= i <= |items|
      invariant processed == ProcessAll(items[..i], batchId, now, uuid)
    {
      processed := processed + [ProcessedItem(uuid(i), batchId, items[i], now)];
      i := i + 1;
    }
    assert items[..i] == items;
    return SuccessResponse(batchId, items, processed, now);
  }
}
