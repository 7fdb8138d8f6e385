/** The two evidence extractors of the collector: the `EVIDENCE ` marker line
    written by the Glue job, and the JSON event line of a workflow execution.

    `json.loads` is the parameter `parse` (`None` when the text is not JSON);
    the clock reading `datetime.now().isoformat()` is the parameter `now`.
    An extractor that fails inside its own exception handler yields `None`,
    as the source's `return None` does. */
module Extractors {
  import opened Results
  import opened Text
  import opened JsonValue
  import opened FlowMapping

  const Marker := "EVIDENCE "

  /** The event types that end a workflow execution. */
  const TerminalTypes: set<string> :=
    {"ExecutionSucceeded", "ExecutionFailed", "ExecutionAborted", "ExecutionTimedOut"}

  /** `process_glue_log(message, event_id)`: the text after the marker is
      parsed; a top-level `evidence` member, when present, is the envelope;
      the envelope gets `event_id` and a fresh `ts`.  Any step that raises
      (no JSON, `in` on a scalar, indexing or updating a non-object) yields
      nothing. */
  function GlueEvidence(msg: string, eventId: string, now: string, parse: string -> Option<Json>): (r: Option<map<string, Json>>)
    ensures r.Some? ==> StartsWith(msg, Marker)
    ensures r.Some? ==> parse(msg[|Marker|..]).Some? && parse(msg[|Marker|..]).value.JObj?
    ensures r.Some? ==> "event_id" in r.value && r.value["event_id"] == JStr(eventId)
    ensures r.Some? ==> "ts" in r.value && r.value["ts"] == JStr(now)
  {
    if !StartsWith(msg, Marker) then None
    else match parse(msg[|Marker|..])
      case Some(JObj(doc)) =>
        var e := if "evidence" in doc then doc["evidence"] else JObj(doc);
        if e.JObj? then Some(e.fields["event_id" := JStr(eventId)]["ts" := JStr(now)]) else None
      case _ => None
  }

  /** The line the Glue job prints, `"EVIDENCE " + json.dumps({"evidence": e})`,
      gives back `e` with `event_id` set and `ts` replaced, and every other
      field unchanged. */
  lemma GlueRoundTrip(payload: string, e: map<string, Json>, eventId: string, now: string, parse: string -> Option<Json>)
    requires parse(payload) == Some(JObj(map["evidence" := JObj(e)]))
    ensures GlueEvidence(Marker + payload, eventId, now, parse) == Some(e["event_id" := JStr(eventId)]["ts" := JStr(now)])
    ensures forall k :: k in e && k != "event_id" && k != "ts" ==>
      GlueEvidence(Marker + payload, eventId, now, parse).value[k] == e[k]
  {
    assert (Marker + payload)[|Marker|..] == payload;
  }

  /** `isinstance(log_data.get(key), dict) and 'evidence' in log_data[key]` */
  predicate CarriesEvidence(doc: map<string, Json>, key: string) {
    key in doc && doc[key].JObj? && "evidence" in doc[key].fields
  }

  /** The evidence found under `input`, else under `output`: the first of the
      two that is an object with an `evidence` member decides, even when that
      member is falsy. */
  function NestedEvidence(doc: map<string, Json>): (r: Json)
    ensures CarriesEvidence(doc, "input") ==> r == doc["input"].fields["evidence"]
    ensures !CarriesEvidence(doc, "input") && CarriesEvidence(doc, "output") ==> r == doc["output"].fields["evidence"]
    ensures !CarriesEvidence(doc, "input") && !CarriesEvidence(doc, "output") ==> r == JNull
  {
    var inp := Lookup(doc, "input", JNull);
    var out := Lookup(doc, "output", JNull);
    if inp.JObj? && "evidence" in inp.fields then inp.fields["evidence"]
    else if out.JObj? && "evidence" in out.fields then out.fields["evidence"]
    else JNull
  }

  /** The nested evidence when truthy, else the top-level `evidence` member
      when present. */
  function ChosenEvidence(doc: map<string, Json>): (r: Json)
    ensures Truthy(NestedEvidence(doc)) ==> r == NestedEvidence(doc)
    ensures !Truthy(NestedEvidence(doc)) && "evidence" in doc ==> r == doc["evidence"]
  {
    var nested := NestedEvidence(doc);
    if !Truthy(nested) && "evidence" in doc then doc["evidence"] else nested
  }

  /** `process_step_functions_log(message, event_id)`: an envelope is produced
      exactly when the line is a JSON object whose chosen evidence is a
      non-empty object; it gains the event type, execution ARN, state name,
      event id, flow tag and time stamp. */
  function StepFunctionsEvidence(msg: string, eventId: string, now: string, parse: string -> Option<Json>,
                                 flows: Option<seq<(string, Json)>>): (r: Option<map<string, Json>>)
    ensures r.Some? <==> parse(msg).Some? && parse(msg).value.JObj?
                         && ChosenEvidence(parse(msg).value.fields).JObj?
                         && ChosenEvidence(parse(msg).value.fields).fields != map[]
  {
    match parse(msg)
    case Some(JObj(doc)) =>
      var e := ChosenEvidence(doc);
      if e.JObj? && e.fields != map[] then
        var arn := Lookup(doc, "executionArn", JNull);
        Some(e.fields["event_type" := Lookup(doc, "type", JNull)]
                     ["execution_arn" := arn]
                     ["state_name" := Lookup(doc, "state", JNull)]
                     ["event_id" := JStr(eventId)]
                     ["flow" := FlowType(flows, arn)]
                     ["ts" := JStr(now)])
      else None
    case _ => None
  }

  /** An envelope under `input` wins over one under `output` and over a
      top-level one; the added fields say where it came from, and the rest of
      the envelope is kept. */
  lemma StepFunctionsPrefersInput(msg: string, eventId: string, now: string, parse: string -> Option<Json>,
                                  flows: Option<seq<(string, Json)>>, doc: map<string, Json>, e: map<string, Json>)
    requires parse(msg) == Some(JObj(doc))
    requires "input" in doc && doc["input"].JObj? && "evidence" in doc["input"].fields
    requires doc["input"].fields["evidence"] == JObj(e) && e != map[]
    ensures StepFunctionsEvidence(msg, eventId, now, parse, flows).Some?
    ensures var r := StepFunctionsEvidence(msg, eventId, now, parse, flows).value;
      r["event_type"] == Lookup(doc, "type", JNull) && r["execution_arn"] == Lookup(doc, "executionArn", JNull)
      && r["state_name"] == Lookup(doc, "state", JNull) && r["event_id"] == JStr(eventId)
      && r["flow"] == FlowType(flows, Lookup(doc, "executionArn", JNull)) && r["ts"] == JStr(now)
      && forall k :: k in e && k !in {"event_type", "execution_arn", "state_name", "event_id", "flow", "ts"} ==> r[k] == e[k]
  {
    assert NestedEvidence(doc) == JObj(e);
  }

  /** When `input` carries no evidence, an envelope under `output` wins over
      a top-level one. */
  lemma StepFunctionsPrefersOutput(msg: string, eventId: string, now: string, parse: string -> Option<Json>,
                                   flows: Option<seq<(string, Json)>>, doc: map<string, Json>, e: map<string, Json>)
    requires parse(msg) == Some(JObj(doc))
    requires !CarriesEvidence(doc, "input")
    requires CarriesEvidence(doc, "output") && doc["output"].fields["evidence"] == JObj(e) && e != map[]
    ensures StepFunctionsEvidence(msg, eventId, now, parse, flows).Some?
    ensures var r := StepFunctionsEvidence(msg, eventId, now, parse, flows).value;
      r["event_id"] == JStr(eventId) && r["ts"] == JStr(now)
      && forall k :: k in e && k !in {"event_type", "execution_arn", "state_name", "event_id", "flow", "ts"} ==> r[k] == e[k]
  {
    assert NestedEvidence(doc) == JObj(e);
  }

  /** The clock only stamps `ts`: read at another time, both extractors find
      an envelope for the same lines, and the same envelope apart from `ts`. */
  lemma ExtractorsIgnoreClock(msg: string, eventId: string, now1: string, now2: string,
                              parse: string -> Option<Json>, flows: Option<seq<(string, Json)>>)
    ensures GlueEvidence(msg, eventId, now1, parse).Some? == GlueEvidence(msg, eventId, now2, parse).Some?
    ensures GlueEvidence(msg, eventId, now1, parse).Some? ==>
      GlueEvidence(msg, eventId, now1, parse).value == GlueEvidence(msg, eventId, now2, parse).value["ts" := JStr(now1)]
    ensures StepFunctionsEvidence(msg, eventId, now1, parse, flows).Some?
            == StepFunctionsEvidence(msg, eventId, now2, parse, flows).Some?
    ensures StepFunctionsEvidence(msg, eventId, now1, parse, flows).Some? ==>
      StepFunctionsEvidence(msg, eventId, now1, parse, flows).value
        == StepFunctionsEvidence(msg, eventId, now2, parse, flows).value["ts" := JStr(now1)]
  {
  }

  /** A line without any evidence member yields nothing, whatever its event
      type. */
  lemma StepFunctionsNoEvidence(msg: string, eventId: string, now: string, parse: string -> Option<Json>,
                                flows: Option<seq<(string, Json)>>, doc: map<string, Json>)
    requires parse(msg) == Some(JObj(doc))
    requires "evidence" !in doc
    requires "input" in doc ==> !doc["input"].JObj? || "evidence" !in doc["input"].fields
    requires "output" in doc ==> !doc["output"].JObj? || "evidence" !in doc["output"].fields
    ensures StepFunctionsEvidence(msg, eventId, now, parse, flows) == None
  {
    assert NestedEvidence(doc) == JNull;
  }
}
