/** The collector's handler, `lambda_handler(event, context)`: one delivery of
    log lines is scanned in order; each line that yields an evidence envelope
    is written under its per-step key and its batch is recorded as seen, and
    as terminal when the line ends an execution or the envelope says so;
    finally every terminal batch is aggregated and its summary written.

    The delivery arrives already decoded (`None` when base64, gzip or JSON
    decoding fails).  `ENABLED` and `SAVE_RAW_LOGS` are the parameters
    `enabled` and `saveRaw`. */
module Collector {
  import opened Results
  import opened Text
  import opened JsonValue
  import opened StringOrder
  import opened EvidenceStore
  import opened Naming
  import opened Extractors
  import opened Aggregator

  datatype LogEvent = LogEvent(message: string, id: string)

  datatype Delivery = Delivery(logGroup: string, events: seq<LogEvent>)

  /** What the handler reads from its surroundings: the clock as an ISO
      string and as whole epoch seconds, `json.loads`, the flow mapping, the
      text of an exception should one be raised, and the HTML text
      `generate_html_report(batch_id, summary)` returns when it does not
      raise. */
  datatype Env = Env(now: string, epoch: nat, parse: string -> Option<Json>,
                     flows: Option<seq<(string, Json)>>, errText: string,
                     render: (string, Summary) -> string)

  /** The handler's response: `{ok: true, message: "disabled"}`, the
      processed response, or `{ok: false, error}`. */
  datatype HandlerResult =
    | Disabled
    | Processed(processedBatches: set<string>, finalizedBatches: set<string>, logGroup: string, eventsCount: nat)
    | Failed(error: string)

  const StatesGroup := "/aws/states/"

  /** The decoded delivery as written to `raw-logs/`. */
  function DeliveryJson(d: Delivery): Json {
    JObj(map["logGroup" := JStr(d.logGroup),
             "logEvents" := JArr(seq(|d.events|, i requires 0 <= i < |d.events| =>
                                   JObj(map["id" := JStr(d.events[i].id), "message" := JStr(d.events[i].message)])))])
  }

  /** `evidence.get('batch_id') or f"B{int(time.time())}"`, as the string the
      keys are built from; a list or object cannot enter the set of seen
      batches and raises. */
  function BatchIdOf(e: map<string, Json>, epoch: nat): (r: Result<string>)
    ensures var b := Lookup(e, "batch_id", JNull);
      (r.Raised? <==> Truthy(b) && (b.JArr? || b.JObj?))
      && (!Truthy(b) ==> r == Ok("B" + NatToString(epoch)))
      && (Truthy(b) && b.JStr? ==> r == Ok(b.s))
  {
    var b := Lookup(e, "batch_id", JNull);
    if !Truthy(b) then Ok("B" + NatToString(epoch))
    else if b.JStr? then Ok(b.s)
    else if b.JArr? || b.JObj? then Raised
    else Ok(Show(b))
  }

  /** The line is a JSON object whose `type` ends an execution. */
  predicate TerminalEvent(doc: Option<Json>) {
    doc.Some? && doc.value.JObj? && Lookup(doc.value.fields, "type", JNull).JStr?
    && Lookup(doc.value.fields, "type", JNull).s in TerminalTypes
  }

  /** The envelope a line yields: the marker extractor when the line contains
      the marker, else, in a workflow log group and for a line that is a JSON
      object, the workflow-event extractor. */
  function LineEvidence(env: Env, group: string, ev: LogEvent): (r: Option<map<string, Json>>)
    ensures r.Some? ==> r.value != map[]
    ensures r.Some? ==> Contains(ev.message, Marker) || Contains(group, StatesGroup)
  {
    var glue := if Contains(ev.message, Marker) then GlueEvidence(ev.message, ev.id, env.now, env.parse) else None;
    if glue.Some? then glue
    else if Contains(group, StatesGroup) && env.parse(ev.message).Some? && env.parse(ev.message).value.JObj? then
      StepFunctionsEvidence(ev.message, ev.id, env.now, env.parse, env.flows)
    else None
  }

  /** The write a line makes: its batch, its key, the envelope, and whether
      it finalizes its batch. */
  datatype LineWrite = LineWrite(batchId: string, key: string, envelope: Json, terminal: bool)

  /** One pass of the per-line loop.  It raises only when a found envelope
      has a list or object batch id, or a truthy step that is not a string. */
  function LineOutcome(env: Env, group: string, ev: LogEvent): (r: Result<Option<LineWrite>>)
    ensures r == Ok(None) <==> LineEvidence(env, group, ev).None?
    ensures r.Raised? <==> (LineEvidence(env, group, ev).Some?
      && (BatchIdOf(LineEvidence(env, group, ev).value, env.epoch).Raised?
          || StepName(Lookup(LineEvidence(env, group, ev).value, "step", JStr("unknown"))).Raised?))
    ensures r.Ok? && r.value.Some? ==>
      var e := LineEvidence(env, group, ev).value;
      var w := r.value.value;
      w.envelope == JObj(e)
      && w.batchId == BatchIdOf(e, env.epoch).value
      && w.key == PerStepKey(w.batchId, StepName(Lookup(e, "step", JStr("unknown"))).value, ev.id)
      && (w.terminal <==> (Contains(group, StatesGroup) && TerminalEvent(env.parse(ev.message)))
                          || Truthy(Lookup(e, "is_terminal", JNull)))
  {
    var isTerminal := Contains(group, StatesGroup) && TerminalEvent(env.parse(ev.message));
    match LineEvidence(env, group, ev)
    case None => Ok(None)
    case Some(e) =>
      var batchId :- BatchIdOf(e, env.epoch);
      var step :- StepName(Lookup(e, "step", JStr("unknown")));
      Ok(Some(LineWrite(batchId, PerStepKey(batchId, step, ev.id), JObj(e),
                        isTerminal || Truthy(Lookup(e, "is_terminal", JNull)))))
  }

  /** The outcome of every line, in order. */
  function Outcomes(env: Env, group: string, events: seq<LogEvent>): (os: seq<Result<Option<LineWrite>>>)
    ensures |os| == |events|
    ensures forall i :: 0 <= i < |events| ==> os[i] == LineOutcome(env, group, events[i])
  {
    seq(|events|, i requires 0 <= i < |events| => LineOutcome(env, group, events[i]))
  }

  /** The state of the per-line loop: the seen and terminal batches, the
      writes made, and whether an exception ended the loop. */
  datatype Scan = Scan(seen: set<string>, terminal: set<string>, writes: seq<(string, Json)>, failed: bool)

  /** One line of the loop: an exception ends it, a line without evidence
      changes nothing, an envelope marks its batch seen (and terminal) and
      is written. */
  function StepScan(s: Scan, o: Result<Option<LineWrite>>): Scan {
    match o
    case Raised => s.(failed := true)
    case Ok(None) => s
    case Ok(Some(w)) =>
      Scan(s.seen + {w.batchId}, if w.terminal then s.terminal + {w.batchId} else s.terminal,
           s.writes + [(w.key, w.envelope)], false)
  }

  /** The per-line loop over the outcomes of the lines. */
  function ScanOutcomes(os: seq<Result<Option<LineWrite>>>): Scan
    decreases |os|
  {
    if os == [] then Scan({}, {}, [], false)
    else
      var s := ScanOutcomes(os[..|os| - 1]);
      if s.failed then s else StepScan(s, os[|os| - 1])
  }

  function ScanLines(env: Env, group: string, events: seq<LogEvent>): Scan {
    ScanOutcomes(Outcomes(env, group, events))
  }

  /** The outcome yields a write for batch `b` (a terminal one when
      `terminal`). */
  predicate WritesBatch(o: Result<Option<LineWrite>>, b: string, terminal: bool) {
    o.Ok? && o.value.Some? && o.value.value.batchId == b && (terminal ==> o.value.value.terminal)
  }

  /** The loop fails exactly when some line raises, and terminal batches
      are always seen batches. */
  lemma {:induction false} ScanFailure(os: seq<Result<Option<LineWrite>>>)
    ensures var s := ScanOutcomes(os);
      (!s.failed <==> forall j :: 0 <= j < |os| ==> os[j].Ok?) && s.terminal <= s.seen
    decreases |os|
  {
    if os != [] {
      var n := |os| - 1;
      ScanFailure(os[..n]);
      assert forall j :: 0 <= j < n ==> os[..n][j] == os[j];
    }
  }

  /** Without a failure, a batch is seen exactly when some line yields an
      envelope for it, and terminal exactly when such a line is also
      terminal. */
  lemma {:induction false} ScanBatches(os: seq<Result<Option<LineWrite>>>, b: string, terminal: bool)
    requires !ScanOutcomes(os).failed
    ensures (b in (if terminal then ScanOutcomes(os).terminal else ScanOutcomes(os).seen))
      <==> exists i :: 0 <= i < |os| && WritesBatch(os[i], b, terminal)
    decreases |os|
  {
    if os != [] {
      var n := |os| - 1;
      var pre := os[..n];
      ScanBatches(pre, b, terminal);
      if exists i :: 0 <= i < |os| && WritesBatch(os[i], b, terminal) {
        var i :| 0 <= i < |os| && WritesBatch(os[i], b, terminal);
        if i < n { assert pre[i] == os[i]; }
      }
      if exists i :: 0 <= i < n && WritesBatch(pre[i], b, terminal) {
        var i :| 0 <= i < n && WritesBatch(pre[i], b, terminal);
        assert pre[i] == os[i];
      }
    }
  }

  /** Once a line raises, later lines change nothing. */
  lemma {:induction false} ScanFailedStays(os: seq<Result<Option<LineWrite>>>, i: nat)
    requires i <= |os| && ScanOutcomes(os[..i]).failed
    ensures ScanOutcomes(os) == ScanOutcomes(os[..i])
    decreases |os| - i
  {
    if i < |os| {
      assert os[..i + 1][..i] == os[..i];
      ScanFailedStays(os, i + 1);
    } else {
      assert os[..i] == os;
    }
  }

  /** One more line on a loop that has not failed: the step `ScanOutcomes`
      takes for the last outcome. */
  lemma ScanStep(os: seq<Result<Option<LineWrite>>>, i: nat)
    requires i < |os| && !ScanOutcomes(os[..i]).failed
    ensures ScanOutcomes(os[..i + 1]) == StepScan(ScanOutcomes(os[..i]), os[i])
  {
    assert os[..i + 1][..i] == os[..i];
  }

  /** An outcome without a write, anywhere in the sequence, changes nothing. */
  lemma {:induction false} SkipNone(pre: seq<Result<Option<LineWrite>>>, post: seq<Result<Option<LineWrite>>>)
    ensures ScanOutcomes(pre + [Ok(None)] + post) == ScanOutcomes(pre + post)
    decreases |post|
  {
    if post == [] {
      assert (pre + [Ok(None)] + post)[..|pre|] == pre;
      assert pre + post == pre;
    } else {
      var n := |post| - 1;
      SkipNone(pre, post[..n]);
      assert (pre + [Ok(None)] + post)[..|pre| + 1 + n] == pre + [Ok(None)] + post[..n];
      assert (pre + post)[..|pre| + n] == pre + post[..n];
    }
  }

  /** The outcomes of two runs of lines, one after the other. */
  lemma OutcomesAppend(env: Env, group: string, xs: seq<LogEvent>, ys: seq<LogEvent>)
    ensures Outcomes(env, group, xs + ys) == Outcomes(env, group, xs) + Outcomes(env, group, ys)
  {
  }

  /** A line that yields no envelope (unparsable, no marker, no evidence),
      wherever it stands in the delivery, neither aborts the loop nor changes
      what it builds. */
  lemma MalformedLineSkipped(env: Env, group: string, pre: seq<LogEvent>, bad: LogEvent, post: seq<LogEvent>)
    requires LineEvidence(env, group, bad).None?
    ensures ScanLines(env, group, pre + [bad] + post) == ScanLines(env, group, pre + post)
  {
    var a, c := Outcomes(env, group, pre), Outcomes(env, group, post);
    assert Outcomes(env, group, [bad]) == [Ok(None)];
    OutcomesAppend(env, group, pre + [bad], post);
    OutcomesAppend(env, group, pre, [bad]);
    OutcomesAppend(env, group, pre, post);
    assert Outcomes(env, group, pre + [bad] + post) == a + [Ok(None)] + c;
    SkipNone(a, c);
  }

  /** A line that is neither JSON nor carries the marker yields nothing. */
  lemma UnparsableLineYieldsNothing(env: Env, group: string, ev: LogEvent)
    requires env.parse(ev.message).None? && !Contains(ev.message, Marker)
    ensures LineOutcome(env, group, ev) == Ok(None)
  {
  }

  /** A workflow line that ends an execution but carries no evidence
      finalizes nothing. */
  lemma TerminalWithoutEvidence(env: Env, group: string, events: seq<LogEvent>, ev: LogEvent)
    requires Contains(group, StatesGroup) && TerminalEvent(env.parse(ev.message))
    requires !Contains(ev.message, Marker)
    requires var doc := env.parse(ev.message).value.fields;
      "evidence" !in doc
      && ("input" in doc ==> !doc["input"].JObj? || "evidence" !in doc["input"].fields)
      && ("output" in doc ==> !doc["output"].JObj? || "evidence" !in doc["output"].fields)
    ensures ScanLines(env, group, events + [ev]) == ScanLines(env, group, events)
  {
    StepFunctionsNoEvidence(ev.message, ev.id, env.now, env.parse, env.flows, env.parse(ev.message).value.fields);
    MalformedLineSkipped(env, group, events, ev, []);
    assert events + [ev] + [] == events + [ev];
    assert events + [] == events;
  }

  /** A step whose `step` member is a list or an object: `generate_html_report`
      looks each step's name up in a dict (lambda-functions/monitoring_lambda.py:62
      and :170), and such a name is unhashable.  `safe_filename` lets an empty
      one through as `unknown`, so such steps do get stored. */
  predicate UnhashableStep(step: Json) {
    step.JObj? && "step" in step.fields && (step.fields["step"].JArr? || step.fields["step"].JObj?)
  }

  /** The report of a summary raises exactly when one of its steps has an
      unhashable name.  The error summary has no steps, and a section that is
      not an object has already made the aggregation fail, so nothing else
      the report reads can raise. */
  predicate ReportRaises(s: Summary) {
    s.Summary? && exists i :: 0 <= i < |s.steps| && UnhashableStep(s.steps[i])
  }

  /** The report of a batch's summary raises exactly when the aggregation
      succeeded and one of the envelopes stored under the batch's per-step
      prefix has an unhashable `step`. */
  lemma ReportRaisesMeaning(objects: map<string, Json>, b: string, now: string, errText: string)
    ensures var s := Aggregate(objects, b, now, errText);
      var keys := Listing(objects, PerStepPrefix(b));
      ReportRaises(s) <==>
        (s.Summary? && exists i :: 0 <= i < |keys| && keys[i] in objects && UnhashableStep(objects[keys[i]]))
  {
    var keys := Listing(objects, PerStepPrefix(b));
    var envs := Bodies(objects, keys);
    ListingSpec(objects, PerStepPrefix(b));
    SummarizeStatus(envs, b, now, errText);
  }

  /** The store after the finalizing loop, and whether a report raised. */
  datatype Finals = Finals(objects: map<string, Json>, failed: bool)

  /** `aggregate_evidences` as the handler calls it: the clock reading and the
      exception text come from `env`. */
  ghost function Summaries(env: Env): (map<string, Json>, string) -> Summary {
    (o: map<string, Json>, b: string) => Aggregate(o, b, env.now, env.errText)
  }

  /** One pass of the finalizing loop: summarize the batch (`agg` is
      `Summaries(env)` in the handler) and write its summary; then either the
      report raises, which ends the handler, or the report is written. */
  ghost function FinalizeOne(objects: map<string, Json>, b: string, env: Env,
                             agg: (map<string, Json>, string) -> Summary): Finals {
    var s := agg(objects, b);
    var o := objects[SummaryKey(b) := SummaryJson(s)];
    if ReportRaises(s) then Finals(o, true)
    else Finals(o[ReportKey(b) := JStr(env.render(b, s))], false)
  }

  /** Each terminal batch in turn, against the store as the earlier passes
      left it, until a report raises. */
  ghost function FinalizeAll(objects: map<string, Json>, batches: seq<string>, env: Env,
                            agg: (map<string, Json>, string) -> Summary): Finals
    decreases |batches|
  {
    if batches == [] then Finals(objects, false)
    else
      var f := FinalizeAll(objects, batches[..|batches| - 1], env, agg);
      if f.failed then f else FinalizeOne(f.objects, batches[|batches| - 1], env, agg)
  }

  /** The summary built for `batches[j]`: the aggregate over the store as the
      passes before it left it. */
  ghost function Turn(objects: map<string, Json>, batches: seq<string>, j: nat, env: Env,
                      agg: (map<string, Json>, string) -> Summary): Summary
    requires j < |batches|
  {
    agg(FinalizeAll(objects, batches[..j], env, agg).objects, batches[j])
  }

  /** The first `j` of the first `n` are the first `j`. */
  lemma PrefixOfPrefix<T>(s: seq<T>, n: nat, j: nat)
    requires j <= n <= |s|
    ensures s[..n][..j] == s[..j]
  {
  }

  /** A pass writes the batch's summary; it fails exactly when the report
      raises, and then writes nothing else; otherwise it writes the report. */
  lemma FinalizeOneWrites(objects: map<string, Json>, b: string, env: Env,
                          agg: (map<string, Json>, string) -> Summary)
    ensures var f := FinalizeOne(objects, b, env, agg);
      f.failed == ReportRaises(agg(objects, b))
      && SummaryKey(b) in f.objects && f.objects[SummaryKey(b)] == SummaryJson(agg(objects, b))
      && (f.failed ==> f.objects == objects[SummaryKey(b) := SummaryJson(agg(objects, b))])
      && (!f.failed ==> ReportKey(b) in f.objects && f.objects[ReportKey(b)] == JStr(env.render(b, agg(objects, b))))
  {
    OutputKeysApart(b, b);
  }

  /** A pass changes no key but the batch's summary and report keys. */
  lemma FinalizeOneFrame(objects: map<string, Json>, b: string, env: Env,
                         agg: (map<string, Json>, string) -> Summary, k: string)
    requires k != SummaryKey(b) && k != ReportKey(b)
    ensures var o := FinalizeOne(objects, b, env, agg).objects;
      (k in o <==> k in objects) && (k in objects ==> o[k] == objects[k])
  {
  }

  /** One more batch is one more pass of the finalizing loop. */
  lemma FinalizeNext(objects: map<string, Json>, batches: seq<string>, j: nat, env: Env,
      agg: (map<string, Json>, string) -> Summary)
    requires j < |batches| && !FinalizeAll(objects, batches[..j], env, agg).failed
    ensures FinalizeAll(objects, batches[..j + 1], env, agg)
      == FinalizeOne(FinalizeAll(objects, batches[..j], env, agg).objects, batches[j], env, agg)
  {
    assert batches[..j + 1][..j] == batches[..j];
  }

  /** Once a report raises, the later batches change nothing. */
  lemma {:induction false} FinalizeFailedStays(objects: map<string, Json>, batches: seq<string>, i: nat, env: Env,
      agg: (map<string, Json>, string) -> Summary)
    requires i <= |batches| && FinalizeAll(objects, batches[..i], env, agg).failed
    ensures FinalizeAll(objects, batches, env, agg) == FinalizeAll(objects, batches[..i], env, agg)
    decreases |batches| - i
  {
    if i < |batches| {
      assert batches[..i + 1][..i] == batches[..i];
      FinalizeFailedStays(objects, batches, i + 1, env, agg);
    } else {
      assert batches[..i] == batches;
    }
  }

  /** The finalizing loop fails exactly when the report of some batch's
      summary raises. */
  lemma {:induction false} FinalizeFails(objects: map<string, Json>, batches: seq<string>, env: Env,
      agg: (map<string, Json>, string) -> Summary)
    ensures !FinalizeAll(objects, batches, env, agg).failed
      <==> forall j :: 0 <= j < |batches| ==> !ReportRaises(Turn(objects, batches, j, env, agg))
    decreases |batches|
  {
    if batches != [] {
      var n := |batches| - 1;
      var pre := batches[..n];
      FinalizeFails(objects, pre, env, agg);
      forall j | 0 <= j < n
        ensures Turn(objects, pre, j, env, agg) == Turn(objects, batches, j, env, agg)
      {
        assert pre[..j] == batches[..j];
      }
      var f := FinalizeAll(objects, pre, env, agg);
      if f.failed {
        var j :| 0 <= j < n && ReportRaises(Turn(objects, pre, j, env, agg));
        assert ReportRaises(Turn(objects, batches, j, env, agg));
      } else {
        FinalizeOneWrites(f.objects, batches[n], env, agg);
        assert Turn(objects, batches, n, env, agg) == agg(f.objects, batches[n]);
      }
    }
  }

  /** When the loop fails, it stopped at a batch whose report raised: the
      store is what that failing pass left (its summary written, its report
      not, by `FinalizeOneWrites`), so the later batches are never
      finalized. */
  lemma {:induction false} FinalizeStops(objects: map<string, Json>, batches: seq<string>, env: Env,
      agg: (map<string, Json>, string) -> Summary)
    ensures var f := FinalizeAll(objects, batches, env, agg);
      f.failed ==> (exists j :: 0 <= j < |batches|
                      && !FinalizeAll(objects, batches[..j], env, agg).failed
                      && ReportRaises(Turn(objects, batches, j, env, agg))
                      && f == FinalizeOne(FinalizeAll(objects, batches[..j], env, agg).objects, batches[j], env, agg))
    decreases |batches|
  {
    if batches != [] {
      var n := |batches| - 1;
      var pre := batches[..n];
      var f := FinalizeAll(objects, pre, env, agg);
      if f.failed {
        FinalizeStops(objects, pre, env, agg);
        var j :| 0 <= j < n && !FinalizeAll(objects, pre[..j], env, agg).failed
          && ReportRaises(Turn(objects, pre, j, env, agg))
          && f == FinalizeOne(FinalizeAll(objects, pre[..j], env, agg).objects, pre[j], env, agg);
        PrefixOfPrefix(batches, n, j);
      } else {
        assert batches[..n] == pre;
        assert Turn(objects, batches, n, env, agg) == agg(f.objects, batches[n]);
      }
    }
  }

  predicate Distinct(bs: seq<string>) {
    forall i, j :: 0 <= i < j < |bs| ==> bs[i] != bs[j]
  }

  /** Finalizing keeps every object; when no report raises, each of the
      (distinct) batches ends up with the summary built on its turn and the
      report of that summary. */
  lemma {:induction false} FinalizeAllSpec(objects: map<string, Json>, batches: seq<string>, env: Env,
      agg: (map<string, Json>, string) -> Summary)
    requires Distinct(batches)
    ensures objects.Keys <= FinalizeAll(objects, batches, env, agg).objects.Keys
    ensures var f := FinalizeAll(objects, batches, env, agg);
      !f.failed ==> forall j :: 0 <= j < |batches| ==>
        SummaryKey(batches[j]) in f.objects && f.objects[SummaryKey(batches[j])] == SummaryJson(Turn(objects, batches, j, env, agg))
        && ReportKey(batches[j]) in f.objects
        && f.objects[ReportKey(batches[j])] == JStr(env.render(batches[j], Turn(objects, batches, j, env, agg)))
    decreases |batches|
  {
    if batches != [] {
      var n := |batches| - 1;
      var pre := batches[..n];
      FinalizeAllSpec(objects, pre, env, agg);
      var f := FinalizeAll(objects, batches, env, agg);
      if !f.failed {
        assert !FinalizeAll(objects, pre, env, agg).failed;
        var o := FinalizeAll(objects, pre, env, agg).objects;
        assert f == FinalizeOne(o, batches[n], env, agg);
        FinalizeOneWrites(o, batches[n], env, agg);
        forall j | 0 <= j < |batches|
          ensures SummaryKey(batches[j]) in f.objects && f.objects[SummaryKey(batches[j])] == SummaryJson(Turn(objects, batches, j, env, agg))
          ensures ReportKey(batches[j]) in f.objects
          ensures f.objects[ReportKey(batches[j])] == JStr(env.render(batches[j], Turn(objects, batches, j, env, agg)))
        {
          var b := batches[j];
          if j < n {
            assert pre[..j] == batches[..j] && pre[j] == b;
            assert Turn(objects, pre, j, env, agg) == Turn(objects, batches, j, env, agg);
            OutputKeysApart(b, batches[n]);
            OutputKeysApart(batches[n], b);
            FinalizeOneFrame(o, batches[n], env, agg, SummaryKey(b));
            FinalizeOneFrame(o, batches[n], env, agg, ReportKey(b));
          } else {
            assert batches[..j] == pre;
          }
        }
      }
    }
  }

  /** Finalizing touches only the summary and report keys of the batches. */
  lemma {:induction false} FinalizeFrame(objects: map<string, Json>, batches: seq<string>, env: Env,
      agg: (map<string, Json>, string) -> Summary, k: string)
    requires forall x :: x in batches ==> k != SummaryKey(x) && k != ReportKey(x)
    ensures var o := FinalizeAll(objects, batches, env, agg).objects;
      (k in o <==> k in objects) && (k in objects ==> o[k] == objects[k])
    decreases |batches|
  {
    if batches != [] {
      var n := |batches| - 1;
      forall x | x in batches[..n]
        ensures k != SummaryKey(x) && k != ReportKey(x)
      {
        var i :| 0 <= i < n && batches[..n][i] == x;
        assert batches[i] == x;
      }
      FinalizeFrame(objects, batches[..n], env, agg, k);
      assert batches[n] in batches;
      var f := FinalizeAll(objects, batches[..n], env, agg);
      if !f.failed {
        FinalizeOneFrame(f.objects, batches[n], env, agg, k);
      }
    }
  }

  /** When no batch id holds `/`, each batch is aggregated against the store
      as the per-line writes left it: the summaries and reports of earlier
      batches never lie under its per-step prefix. */
  lemma FinalizeLocal(objects: map<string, Json>, batches: seq<string>, j: nat, env: Env)
    requires j < |batches| && forall x :: x in batches ==> '/' !in x
    ensures Turn(objects, batches, j, env, Summaries(env)) == Aggregate(objects, batches[j], env.now, env.errText)
  {
    var o := FinalizeAll(objects, batches[..j], env, Summaries(env)).objects;
    var b := batches[j];
    forall k | PerStepPrefix(b) <= k
      ensures (k in o <==> k in objects) && (k in objects ==> o[k] == objects[k])
    {
      forall x | x in batches[..j]
        ensures k != SummaryKey(x) && k != ReportKey(x)
      {
        var i :| 0 <= i < j && batches[..j][i] == x;
        assert batches[i] == x;
        OutputKeysApart(x, b);
      }
      FinalizeFrame(objects, batches[..j], env, Summaries(env), k);
    }
    AggregateLocal(o, objects, b, env.now, env.errText);
  }

  /** The store after the raw payload (when saved) and the per-line writes. */
  ghost function AfterLines(objects: map<string, Json>, env: Env, saveRaw: bool, d: Delivery): map<string, Json> {
    var raw := if saveRaw then objects[RawLogKey(env.epoch, d.logGroup) := DeliveryJson(d)] else objects;
    ApplyWrites(raw, ScanLines(env, d.logGroup, d.events).writes)
  }

  /** The response and the store's objects after one invocation. */
  ghost function Handler(objects: map<string, Json>, env: Env, enabled: bool, saveRaw: bool,
                         payload: Option<Delivery>): (out: (HandlerResult, map<string, Json>))
    ensures !enabled ==> out == (Disabled, objects)
    ensures enabled && payload.None? ==> out == (Failed(env.errText), objects)
  {
    if !enabled then (Disabled, objects)
    else match payload
      case None => (Failed(env.errText), objects)
      case Some(d) =>
        var s := ScanLines(env, d.logGroup, d.events);
        var written := AfterLines(objects, env, saveRaw, d);
        if s.failed then (Failed(env.errText), written)
        else
          var f := FinalizeAll(written, SortedSet(s.terminal), env, Summaries(env));
          (if f.failed then Failed(env.errText) else Processed(s.seen, s.terminal, d.logGroup, |d.events|), f.objects)
  }

  /** The terminal batches, in the order they are finalized, are distinct. */
  lemma SortedDistinct(s: set<string>)
    ensures Distinct(SortedSet(s)) && forall x :: x in SortedSet(s) <==> x in s
  {
    SortedSetSpec(s);
    var r := SortedSet(s);
    forall i, j | 0 <= i < j < |r|
      ensures r[i] != r[j]
    {
      if r[i] == r[j] {
        LexLessIrreflexive(r[i]);
      }
    }
  }

  /** Finalized batches are processed batches; each was made terminal by a
      line that yielded its envelope; and the events count is the number of
      lines delivered. */
  lemma HandlerProcessed(objects: map<string, Json>, env: Env, enabled: bool, saveRaw: bool, d: Delivery)
    ensures var out := Handler(objects, env, enabled, saveRaw, Some(d));
      out.0.Processed? ==>
        out.0.finalizedBatches <= out.0.processedBatches
        && out.0.eventsCount == |d.events| && out.0.logGroup == d.logGroup
        && (forall b :: b in out.0.finalizedBatches <==>
              exists i :: 0 <= i < |d.events| && WritesBatch(LineOutcome(env, d.logGroup, d.events[i]), b, true))
  {
    var os := Outcomes(env, d.logGroup, d.events);
    var s := ScanOutcomes(os);
    if enabled && !s.failed {
      ScanFailure(os);
      forall b
        ensures b in s.terminal <==> exists i :: 0 <= i < |d.events| && WritesBatch(os[i], b, true)
      {
        ScanBatches(os, b, true);
      }
    }
  }

  /** Every finalized batch has its summary and its report in the store. */
  lemma HandlerStored(objects: map<string, Json>, env: Env, enabled: bool, saveRaw: bool, d: Delivery)
    ensures var out := Handler(objects, env, enabled, saveRaw, Some(d));
      out.0.Processed? ==> forall b :: b in out.0.finalizedBatches ==> SummaryKey(b) in out.1 && ReportKey(b) in out.1
  {
    var s := ScanLines(env, d.logGroup, d.events);
    if enabled && !s.failed {
      var batches := SortedSet(s.terminal);
      SortedDistinct(s.terminal);
      var written := AfterLines(objects, env, saveRaw, d);
      var f := FinalizeAll(written, batches, env, Summaries(env));
      if !f.failed {
        FinalizeAllSpec(written, batches, env, Summaries(env));
        forall b | b in s.terminal
          ensures SummaryKey(b) in f.objects && ReportKey(b) in f.objects
        {
          var j :| 0 <= j < |batches| && batches[j] == b;
        }
      }
    }
  }

  /** With batch ids free of `/`, the summary stored for each finalized
      batch is the aggregate of that batch's per-step evidence as this
      delivery's writes left the store, its report did not raise, and the
      report written is the rendering of that summary. */
  lemma HandlerSummaries(objects: map<string, Json>, env: Env, enabled: bool, saveRaw: bool, d: Delivery)
    requires forall b :: b in ScanLines(env, d.logGroup, d.events).terminal ==> '/' !in b
    ensures var out := Handler(objects, env, enabled, saveRaw, Some(d));
      out.0.Processed? ==> forall b :: b in out.0.finalizedBatches ==>
        var s := Aggregate(AfterLines(objects, env, saveRaw, d), b, env.now, env.errText);
        SummaryKey(b) in out.1 && out.1[SummaryKey(b)] == SummaryJson(s) && !ReportRaises(s)
        && ReportKey(b) in out.1 && out.1[ReportKey(b)] == JStr(env.render(b, s))
  {
    var s := ScanLines(env, d.logGroup, d.events);
    if enabled && !s.failed {
      var batches := SortedSet(s.terminal);
      SortedDistinct(s.terminal);
      var written := AfterLines(objects, env, saveRaw, d);
      var f := FinalizeAll(written, batches, env, Summaries(env));
      if !f.failed {
        FinalizeAllSpec(written, batches, env, Summaries(env));
        FinalizeFails(written, batches, env, Summaries(env));
        forall b | b in s.terminal
          ensures var a := Aggregate(written, b, env.now, env.errText);
            SummaryKey(b) in f.objects && f.objects[SummaryKey(b)] == SummaryJson(a) && !ReportRaises(a)
            && ReportKey(b) in f.objects && f.objects[ReportKey(b)] == JStr(env.render(b, a))
        {
          var j :| 0 <= j < |batches| && batches[j] == b;
          FinalizeLocal(written, batches, j, env);
        }
      }
    }
  }

  /** An enabled handler fails on a delivery exactly when one of its lines
      raises or, after the lines, the finalizing loop stops on a report that
      raises. */
  lemma HandlerFailsIffRaise(objects: map<string, Json>, env: Env, enabled: bool, saveRaw: bool, d: Delivery)
    ensures var out := Handler(objects, env, enabled, saveRaw, Some(d));
      enabled ==> (out.0.Failed? <==>
        (exists i :: 0 <= i < |d.events| && LineOutcome(env, d.logGroup, d.events[i]).Raised?)
        || FinalizeAll(AfterLines(objects, env, saveRaw, d), SortedSet(ScanLines(env, d.logGroup, d.events).terminal), env,
                      Summaries(env)).failed)
  {
    var os := Outcomes(env, d.logGroup, d.events);
    ScanFailure(os);
  }

  /** With batch ids free of `/`, the finalizing loop fails exactly when
      the report of some batch's summary, taken over the store it was given,
      raises. */
  lemma FinalizeFailsLocal(objects: map<string, Json>, batches: seq<string>, env: Env)
    requires forall x :: x in batches ==> '/' !in x
    ensures FinalizeAll(objects, batches, env, Summaries(env)).failed <==>
      exists j :: 0 <= j < |batches| && ReportRaises(Aggregate(objects, batches[j], env.now, env.errText))
  {
    FinalizeFails(objects, batches, env, Summaries(env));
    forall j | 0 <= j < |batches|
      ensures Turn(objects, batches, j, env, Summaries(env)) == Aggregate(objects, batches[j], env.now, env.errText)
    {
      FinalizeLocal(objects, batches, j, env);
    }
  }

  /** Finalizing the terminal batches in sorted order, with batch ids free of
      `/`, fails exactly when the report of some terminal batch's summary,
      taken over the store it was given, raises. */
  lemma FinalizeFailsSet(objects: map<string, Json>, t: set<string>, env: Env)
    requires forall b :: b in t ==> '/' !in b
    ensures FinalizeAll(objects, SortedSet(t), env, Summaries(env)).failed <==>
      exists b :: b in t && ReportRaises(Aggregate(objects, b, env.now, env.errText))
  {
    var batches := SortedSet(t);
    SortedDistinct(t);
    FinalizeFailsLocal(objects, batches, env);
    if exists b :: b in t && ReportRaises(Aggregate(objects, b, env.now, env.errText)) {
      var b :| b in t && ReportRaises(Aggregate(objects, b, env.now, env.errText));
      var j :| 0 <= j < |batches| && batches[j] == b;
    }
  }

  /** Once no line raised, the handler fails exactly when finalizing does. */
  lemma HandlerAfterScan(objects: map<string, Json>, env: Env, saveRaw: bool, d: Delivery)
    requires !ScanLines(env, d.logGroup, d.events).failed
    ensures Handler(objects, env, true, saveRaw, Some(d)).0.Failed?
      == FinalizeAll(AfterLines(objects, env, saveRaw, d), SortedSet(ScanLines(env, d.logGroup, d.events).terminal),
                     env, Summaries(env)).failed
  {
  }

  /** With no line raising and batch ids free of `/`, an enabled handler
      fails exactly when the report of some terminal batch's summary raises. */
  lemma HandlerReportFails(objects: map<string, Json>, env: Env, saveRaw: bool, d: Delivery)
    requires forall i :: 0 <= i < |d.events| ==> LineOutcome(env, d.logGroup, d.events[i]).Ok?
    requires forall b :: b in ScanLines(env, d.logGroup, d.events).terminal ==> '/' !in b
    ensures Handler(objects, env, true, saveRaw, Some(d)).0.Failed? <==>
      exists b :: b in ScanLines(env, d.logGroup, d.events).terminal
        && ReportRaises(Aggregate(AfterLines(objects, env, saveRaw, d), b, env.now, env.errText))
  {
    ScanFailure(Outcomes(env, d.logGroup, d.events));
    HandlerAfterScan(objects, env, saveRaw, d);
    FinalizeFailsSet(AfterLines(objects, env, saveRaw, d), ScanLines(env, d.logGroup, d.events).terminal, env);
  }

  /** The keys of a sequence of writes, in order. */
  function WriteKeys(ws: seq<(string, Json)>): (ks: seq<string>)
    ensures |ks| == |ws| && forall i :: 0 <= i < |ws| ==> ks[i] == ws[i].0
  {
    seq(|ws|, i requires 0 <= i < |ws| => ws[i].0)
  }

  /** Two outcomes of one line that agree on everything the keys and the
      batch sets are made of. */
  predicate SameEffect(o1: Result<Option<LineWrite>>, o2: Result<Option<LineWrite>>) {
    (o1.Raised? <==> o2.Raised?) && (o1 == Ok(None) <==> o2 == Ok(None))
    && (o1.Ok? && o1.value.Some? && o2.Ok? && o2.value.Some? ==>
          o1.value.value.batchId == o2.value.value.batchId && o1.value.value.key == o2.value.value.key
          && o1.value.value.terminal == o2.value.value.terminal)
  }

  /** Every envelope the delivery yields names its batch, so no key falls
      back to the clock's `B<epoch>`. */
  ghost predicate BatchIdsGiven(env: Env, d: Delivery) {
    forall i :: 0 <= i < |d.events| && LineEvidence(env, d.logGroup, d.events[i]).Some? ==>
      Truthy(Lookup(LineEvidence(env, d.logGroup, d.events[i]).value, "batch_id", JNull))
  }

  /** Read at another time, a line yields the same envelope apart from `ts`. */
  lemma LineEvidenceClock(env1: Env, env2: Env, group: string, ev: LogEvent)
    requires env1.parse == env2.parse && env1.flows == env2.flows
    ensures LineEvidence(env1, group, ev).Some? == LineEvidence(env2, group, ev).Some?
    ensures LineEvidence(env1, group, ev).Some? ==>
      LineEvidence(env1, group, ev).value == LineEvidence(env2, group, ev).value["ts" := JStr(env1.now)]
  {
    ExtractorsIgnoreClock(ev.message, ev.id, env1.now, env2.now, env1.parse, env1.flows);
  }

  /** Read at another time, a line whose envelope names its batch writes the
      same key for the same batch, and raises or ends its batch alike. */
  lemma LineOutcomeClock(env1: Env, env2: Env, group: string, ev: LogEvent)
    requires env1.parse == env2.parse && env1.flows == env2.flows
    requires LineEvidence(env1, group, ev).Some? ==> Truthy(Lookup(LineEvidence(env1, group, ev).value, "batch_id", JNull))
    ensures SameEffect(LineOutcome(env1, group, ev), LineOutcome(env2, group, ev))
  {
    LineEvidenceClock(env1, env2, group, ev);
    if LineEvidence(env1, group, ev).Some? {
      var e1, e2 := LineEvidence(env1, group, ev).value, LineEvidence(env2, group, ev).value;
      assert Lookup(e1, "batch_id", JNull) == Lookup(e2, "batch_id", JNull);
      assert Lookup(e1, "step", JStr("unknown")) == Lookup(e2, "step", JStr("unknown"));
      assert Lookup(e1, "is_terminal", JNull) == Lookup(e2, "is_terminal", JNull);
    }
  }

  /** Outcomes with the same effect, line by line, build the same batch
      sets and write the same keys in the same order. */
  lemma {:induction false} ScanSameEffect(os1: seq<Result<Option<LineWrite>>>, os2: seq<Result<Option<LineWrite>>>)
    requires |os1| == |os2| && forall i :: 0 <= i < |os1| ==> SameEffect(os1[i], os2[i])
    ensures var s1, s2 := ScanOutcomes(os1), ScanOutcomes(os2);
      s1.seen == s2.seen && s1.terminal == s2.terminal && s1.failed == s2.failed
      && WriteKeys(s1.writes) == WriteKeys(s2.writes)
    decreases |os1|
  {
    if os1 != [] {
      var n := |os1| - 1;
      assert forall i :: 0 <= i < n ==> os1[..n][i] == os1[i] && os2[..n][i] == os2[i];
      ScanSameEffect(os1[..n], os2[..n]);
      assert SameEffect(os1[n], os2[n]);
    }
  }

  /** A delivery that arrives again, later, writes the same keys, even though
      its envelopes carry a new `ts`: the second delivery's writes replace the
      first's, and the store is as if only the second had arrived. */
  lemma RedeliveryOverwrites(objects: map<string, Json>, env1: Env, env2: Env, d: Delivery)
    requires env1.parse == env2.parse && env1.flows == env2.flows
    requires BatchIdsGiven(env1, d)
    ensures var s1, s2 := ScanLines(env1, d.logGroup, d.events), ScanLines(env2, d.logGroup, d.events);
      s1.seen == s2.seen && s1.terminal == s2.terminal && s1.failed == s2.failed
      && WriteKeys(s1.writes) == WriteKeys(s2.writes)
      && ApplyWrites(ApplyWrites(objects, s1.writes), s2.writes) == ApplyWrites(objects, s2.writes)
  {
    var os1, os2 := Outcomes(env1, d.logGroup, d.events), Outcomes(env2, d.logGroup, d.events);
    forall i | 0 <= i < |d.events|
      ensures SameEffect(os1[i], os2[i])
    {
      LineOutcomeClock(env1, env2, d.logGroup, d.events[i]);
    }
    ScanSameEffect(os1, os2);
    var w1, w2 := ScanOutcomes(os1).writes, ScanOutcomes(os2).writes;
    forall k | Written(w1, k)
      ensures Written(w2, k)
    {
      var i :| 0 <= i < |w1| && w1[i].0 == k;
      assert WriteKeys(w1)[i] == WriteKeys(w2)[i];
    }
    ApplyWritesOverwrite(objects, w1, w2);
  }

  /** The per-line loop, against the store. */
  method ScanDelivery(store: Store, env: Env, d: Delivery)
      returns (seen: set<string>, terminal: set<string>, failed: bool)
    modifies store
    ensures var s := ScanLines(env, d.logGroup, d.events);
      seen == s.seen && terminal == s.terminal && failed == s.failed
      && store.objects == ApplyWrites(old(store.objects), s.writes)
  {
    seen, terminal, failed := {}, {}, false;
    ghost var writes: seq<(string, Json)> := [];
    var events := d.events;
    ghost var os := Outcomes(env, d.logGroup, events);
    var i := 0;
    while i < |events|
      invariant 0 <= i <= |events|
      invariant ScanOutcomes(os[..i]) == Scan(seen, terminal, writes, false)
      invariant store.objects == ApplyWrites(old(store.objects), writes)
    {
      ScanStep(os, i);
      var outcome := LineOutcome(env, d.logGroup, events[i]);
      assert os[i] == outcome;
      if outcome.Raised? {
        failed := true;
        ScanFailedStays(os, i + 1);
        assert os[..|os|] == os;
        return;
      }
      seen, terminal, writes := ScanLine(store, outcome, old(store.objects), seen, terminal, writes);
      i := i + 1;
    }
    assert os[..|os|] == os;
  }

  /** The body of the per-line loop for a line that did not raise: the
      state moves by `StepScan` and the envelope, if any, is stored. */
  method ScanLine(store: Store, outcome: Result<Option<LineWrite>>, ghost base: map<string, Json>,
                  seen: set<string>, terminal: set<string>, ghost writes: seq<(string, Json)>)
      returns (seen': set<string>, terminal': set<string>, ghost writes': seq<(string, Json)>)
    requires outcome.Ok?
    requires store.objects == ApplyWrites(base, writes)
    modifies store
    ensures Scan(seen', terminal', writes', false) == StepScan(Scan(seen, terminal, writes, false), outcome)
    ensures store.objects == ApplyWrites(base, writes')
  {
    seen', terminal', writes' := seen, terminal, writes;
    if outcome.value.Some? {
      var w := outcome.value.value;
      seen' := seen + {w.batchId};
      store.Put(w.key, w.envelope);
      ApplyWritesAppend(base, writes, w.key, w.envelope);
      writes' := writes + [(w.key, w.envelope)];
      if w.terminal {
        terminal' := terminal + {w.batchId};
      }
    }
  }

  /** `lambda_handler(event, context)` */
  method LambdaHandler(store: Store, env: Env, enabled: bool, saveRaw: bool, payload: Option<Delivery>)
      returns (r: HandlerResult)
    modifies store
    ensures (r, store.objects) == Handler(old(store.objects), env, enabled, saveRaw, payload)
  {
    if !enabled {
      return Disabled;
    }
    if payload.None? {
      return Failed(env.errText);
    }
    var d := payload.value;
    if saveRaw {
      store.Put(RawLogKey(env.epoch, d.logGroup), DeliveryJson(d));
    }
    var seen, terminal, failed := ScanDelivery(store, env, d);
    if failed {
      return Failed(env.errText);
    }
    var batches := SortedList(terminal);
    var reportFailed := FinalizeBatches(store, env, batches);
    if reportFailed {
      return Failed(env.errText);
    }
    return Processed(seen, terminal, d.logGroup, |d.events|);
  }

  /** The finalizing loop: for each batch, aggregate, write the summary,
      render and write the report; a report that raises ends the loop. */
  method FinalizeBatches(store: Store, env: Env, batches: seq<string>) returns (failed: bool)
    modifies store
    ensures FinalizeAll(old(store.objects), batches, env, Summaries(env)) == Finals(store.objects, failed)
  {
    ghost var written := store.objects;
    var j := 0;
    while j < |batches|
      invariant 0 <= j <= |batches|
      invariant FinalizeAll(written, batches[..j], env, Summaries(env)) == Finals(store.objects, false)
    {
      FinalizeNext(written, batches, j, env, Summaries(env));
      var summary := AggregateEvidences(store, batches[j], env.now, env.errText);
      store.Put(SummaryKey(batches[j]), SummaryJson(summary));
      if ReportRaises(summary) {
        FinalizeFailedStays(written, batches, j + 1, env, Summaries(env));
        return true;
      }
      store.Put(ReportKey(batches[j]), JStr(env.render(batches[j], summary)));
      j := j + 1;
    }
    assert batches[..|batches|] == batches;
    return false;
  }
}
