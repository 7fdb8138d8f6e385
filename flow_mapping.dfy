/** The flow tag of a workflow execution: the first pattern of the flow
    mapping, in mapping order, that occurs in the execution ARN.

    Reading the mapping document from the object store is not modelled; the
    mapping arrives as the sequence of its `(pattern, tag)` entries in
    document order, or `None` when the document cannot be read or has no
    usable `flow_patterns` object. */
module FlowMapping {
  import opened Results
  import opened Text
  import opened JsonValue

  const UnknownFlow := "unknown-pipeline"

  /** The tag of the first entry whose pattern is `in` the ARN.  A test that
      raises (the ARN is missing or of a type `in` rejects) abandons the
      search, which the source's exception handler turns into the unknown
      tag. */
  function FirstMatch(patterns: seq<(string, Json)>, arn: Json): Json
    decreases |patterns|
  {
    if patterns == [] then JStr(UnknownFlow)
    else match PyIn(patterns[0].0, arn)
      case Raised => JStr(UnknownFlow)
      case Ok(found) => if found then patterns[0].1 else FirstMatch(patterns[1..], arn)
  }

  /** `get_flow_type_from_s3(execution_arn)` */
  function FlowType(flows: Option<seq<(string, Json)>>, arn: Json): (r: Json)
    ensures flows.None? ==> r == JStr(UnknownFlow)
    ensures arn.JNull? || arn.JBool? || arn.JInt? || arn.JFloat? ==> r == JStr(UnknownFlow)
  {
    match flows
    case None => JStr(UnknownFlow)
    case Some(patterns) => FirstMatch(patterns, arn)
  }

  /** The search loop: patterns are tried in order and the first hit ends it. */
  method ResolveFlowType(flows: Option<seq<(string, Json)>>, arn: Json) returns (tag: Json)
    ensures tag == FlowType(flows, arn)
  {
    if flows.None? {
      return JStr(UnknownFlow);
    }
    var patterns := flows.value;
    var i := 0;
    while i < |patterns|
      invariant 0 <= i <= |patterns|
      invariant FirstMatch(patterns[i..], arn) == FirstMatch(patterns, arn)
    {
      assert patterns[i..][1..] == patterns[i + 1..];
      var hit := PyIn(patterns[i].0, arn);
      if hit.Raised? {
        return JStr(UnknownFlow);
      }
      if hit.value {
        return patterns[i].1;
      }
      i := i + 1;
    }
    return JStr(UnknownFlow);
  }

  /** For an ARN string, the tag is that of the first pattern that is a
      substring of the ARN. */
  lemma {:induction false} FirstMatchIndex(patterns: seq<(string, Json)>, arn: string, i: nat)
    requires i < |patterns| && Contains(arn, patterns[i].0)
    requires forall j :: 0 <= j < i ==> !Contains(arn, patterns[j].0)
    ensures FirstMatch(patterns, JStr(arn)) == patterns[i].1
    decreases i
  {
    if i > 0 {
      assert !Contains(arn, patterns[0].0);
      FirstMatchIndex(patterns[1..], arn, i - 1);
    }
  }

  /** When no pattern occurs in the ARN the tag is "unknown-pipeline". */
  lemma {:induction false} NoMatchUnknown(patterns: seq<(string, Json)>, arn: string)
    requires forall j :: 0 <= j < |patterns| ==> !Contains(arn, patterns[j].0)
    ensures FirstMatch(patterns, JStr(arn)) == JStr(UnknownFlow)
    decreases |patterns|
  {
    if patterns != [] {
      assert !Contains(arn, patterns[0].0);
      NoMatchUnknown(patterns[1..], arn);
    }
  }
}
