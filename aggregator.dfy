/** `aggregate_evidences(batch_id)`: every envelope stored under
    `evidence/{batch_id}/per-step/`, in listing order, is folded into one
    summary holding the status, the failures, five counters and the window
    of time stamps.  Any exception on the way (an envelope or section that
    is not an object, a row count that cannot be added to an integer, time
    stamps that cannot be compared) gives the error summary instead. */
module Aggregator {
  import opened Results
  import opened Text
  import opened JsonValue
  import opened StringOrder
  import opened EvidenceStore
  import opened Naming

  const UnknownError := "Unknown error"

  datatype Counts = Counts(inputFiles: int, inputRows: int, outputFiles: int, outputRows: int, redshiftLoaded: int)

  const ZeroCounts := Counts(0, 0, 0, 0, 0)

  /** What the loop has built so far. */
  datatype Acc = Acc(steps: seq<Json>, failures: seq<Json>, counts: Counts)

  datatype Summary =
    | Summary(batchId: string, status: string, started: Json, ended: Json, counts: Counts,
              steps: seq<Json>, failures: seq<Json>, generatedAt: string)
    | ErrorSummary(batchId: string, error: string, generatedAt: string)

  /** The `status` field of the stored summary. */
  function StatusOf(s: Summary): string {
    if s.Summary? then s.status else "ERROR"
  }

  /** `evidence.get(section, {}).get(field)`, and when that is truthy the
      integer it adds to a counter: `None` when nothing is added, `Raised`
      when the section is not an object or the value is not an integer. */
  function Contribution(e: map<string, Json>, section: string, field: string): (r: Result<Option<int>>)
    ensures r.Raised? <==> ((section in e && !e[section].JObj?)
      || (section in e && e[section].JObj? && field in e[section].fields
          && Truthy(e[section].fields[field]) && AsInt(e[section].fields[field]).Raised?))
    ensures r.Ok? && r.value.Some? ==>
      section in e && field in e[section].fields && Truthy(e[section].fields[field])
      && r.value.value == AsInt(e[section].fields[field]).value
  {
    var sec := Lookup(e, section, EmptyObj);
    if !sec.JObj? then Raised
    else
      var v := Lookup(sec.fields, field, JNull);
      if !Truthy(v) then Ok(None)
      else
        var n :- AsInt(v);
        Ok(Some(n))
  }

  /** `not evidence.get('ok', True)`: a missing `ok` is a success. */
  predicate Failing(e: map<string, Json>) {
    "ok" in e && !Truthy(e["ok"])
  }

  /** The failure record of a failing envelope. */
  function FailureEntry(e: map<string, Json>): (r: Json)
    ensures r.JObj? && Field(r, "details") == JObj(e)
    ensures Field(r, "error") == (if "error" in e then e["error"] else JStr(UnknownError))
    ensures Field(r, "step") == (if "step" in e then e["step"] else JNull)
  {
    JObj(map["step" := Lookup(e, "step", JNull),
             "error" := Lookup(e, "error", JStr(UnknownError)),
             "details" := JObj(e)])
  }

  /** The increment a contribution makes to a row counter. */
  function Amount(c: Result<Option<int>>): int {
    if c.Ok? && c.value.Some? then c.value.value else 0
  }

  /** The increment a contribution makes to a file counter. */
  function Hit(c: Result<Option<int>>): int {
    if c.Ok? && c.value.Some? then 1 else 0
  }

  /** One pass of the loop body. */
  function StepEnvelope(acc: Acc, env: Json): Result<Acc> {
    if !env.JObj? then Raised
    else
      var e := env.fields;
      var inp :- Contribution(e, "input", "rows");
      var out :- Contribution(e, "output", "rows");
      var load :- Contribution(e, "load", "inserted_rows");
      var c := acc.counts;
      Ok(Acc(acc.steps + [env],
             if Failing(e) then acc.failures + [FailureEntry(e)] else acc.failures,
             Counts(c.inputFiles + Hit(Ok(inp)), c.inputRows + Amount(Ok(inp)),
                    c.outputFiles + Hit(Ok(out)), c.outputRows + Amount(Ok(out)),
                    c.redshiftLoaded + Amount(Ok(load)))))
  }

  /** The loop over the listed envelopes. */
  function Fold(envs: seq<Json>): Result<Acc>
    decreases |envs|
  {
    if envs == [] then Ok(Acc([], [], ZeroCounts))
    else
      var acc :- Fold(envs[..|envs| - 1]);
      StepEnvelope(acc, envs[|envs| - 1])
  }

  /** The envelope at position `i` is one the loop accepts. */
  predicate Readable(env: Json) {
    env.JObj? && Contribution(env.fields, "input", "rows").Ok?
    && Contribution(env.fields, "output", "rows").Ok?
    && Contribution(env.fields, "load", "inserted_rows").Ok?
  }

  predicate FailingEnvelope(env: Json) {
    env.JObj? && Failing(env.fields)
  }

  /** The failure records of the failing envelopes, in order. */
  function FailuresOf(envs: seq<Json>): seq<Json>
    decreases |envs|
  {
    if envs == [] then []
    else
      var last := envs[|envs| - 1];
      FailuresOf(envs[..|envs| - 1]) + (if FailingEnvelope(last) then [FailureEntry(last.fields)] else [])
  }

  /** Sum of the contributions of `section.field` over the envelopes. */
  function RowSum(envs: seq<Json>, section: string, field: string): int
    decreases |envs|
  {
    if envs == [] then 0
    else
      var last := envs[|envs| - 1];
      RowSum(envs[..|envs| - 1], section, field)
      + (if last.JObj? then Amount(Contribution(last.fields, section, field)) else 0)
  }

  /** Number of envelopes whose `section.field` is present and truthy. */
  function RowCount(envs: seq<Json>, section: string, field: string): int
    decreases |envs|
  {
    if envs == [] then 0
    else
      var last := envs[|envs| - 1];
      RowCount(envs[..|envs| - 1], section, field)
      + (if last.JObj? then Hit(Contribution(last.fields, section, field)) else 0)
  }

  /** The loop succeeds exactly when every envelope is readable, and then
      `steps` is every envelope, `failures` one record per failing envelope in
      order, and the counters are the counts and sums of the row fields. */
  lemma FoldMeaning(envs: seq<Json>)
    ensures Fold(envs).Ok? <==> forall i :: 0 <= i < |envs| ==> Readable(envs[i])
    ensures Fold(envs).Ok? ==>
      Fold(envs).value.steps == envs
      && Fold(envs).value.failures == FailuresOf(envs)
      && Fold(envs).value.counts == Counts(RowCount(envs, "input", "rows"), RowSum(envs, "input", "rows"),
                                           RowCount(envs, "output", "rows"), RowSum(envs, "output", "rows"),
                                           RowSum(envs, "load", "inserted_rows"))
  {
    FoldReadable(envs);
    FoldValues(envs);
  }

  lemma {:induction false} FoldReadable(envs: seq<Json>)
    ensures Fold(envs).Ok? <==> forall i :: 0 <= i < |envs| ==> Readable(envs[i])
    decreases |envs|
  {
    if envs != [] {
      FoldReadable(envs[..|envs| - 1]);
      ReadableSplit(envs, envs[..|envs| - 1]);
      FoldOkNext(envs);
    }
  }

  /** Every envelope is readable exactly when every one before the last is
      and the last is. */
  lemma ReadableSplit(envs: seq<Json>, init: seq<Json>)
    requires envs != [] && init == envs[..|envs| - 1]
    ensures (forall i :: 0 <= i < |envs| ==> Readable(envs[i]))
      <==> (forall i :: 0 <= i < |init| ==> Readable(init[i])) && Readable(envs[|envs| - 1])
  {
    assert forall i :: 0 <= i < |init| ==> init[i] == envs[i];
  }

  /** One more envelope: the loop still succeeds exactly when it did so far
      and the new envelope is readable. */
  lemma FoldOkNext(envs: seq<Json>)
    requires envs != []
    ensures Fold(envs).Ok? <==> Fold(envs[..|envs| - 1]).Ok? && Readable(envs[|envs| - 1])
  {
    var pre := Fold(envs[..|envs| - 1]);
    if pre.Ok? {
      StepEnvelopeMeaning(pre.value, envs[|envs| - 1]);
    }
  }

  lemma {:induction false} FoldValues(envs: seq<Json>)
    ensures Fold(envs).Ok? ==>
      Fold(envs).value.steps == envs
      && Fold(envs).value.failures == FailuresOf(envs)
      && Fold(envs).value.counts == Counts(RowCount(envs, "input", "rows"), RowSum(envs, "input", "rows"),
                                           RowCount(envs, "output", "rows"), RowSum(envs, "output", "rows"),
                                           RowSum(envs, "load", "inserted_rows"))
    decreases |envs|
  {
    if envs != [] {
      var n := |envs| - 1;
      var init := envs[..n];
      FoldValues(init);
      var pre := Fold(init);
      if pre.Ok? {
        StepEnvelopeMeaning(pre.value, envs[n]);
        assert Fold(envs) == StepEnvelope(pre.value, envs[n]);
        if Fold(envs).Ok? {
          SplitLast(envs);
        }
      } else {
        assert Fold(envs).Raised?;
      }
    }
  }

  /** A non-empty sequence is its front followed by its last element. */
  lemma SplitLast<T>(s: seq<T>)
    requires s != []
    ensures s[..|s| - 1] + [s[|s| - 1]] == s
  {
  }

  /** One step succeeds exactly on a readable envelope, which it appends,
      recording its failure and adding its contributions to the counters. */
  lemma StepEnvelopeMeaning(acc: Acc, env: Json)
    ensures StepEnvelope(acc, env).Ok? <==> Readable(env)
    ensures StepEnvelope(acc, env).Ok? ==>
      var c := acc.counts;
      StepEnvelope(acc, env).value
        == Acc(acc.steps + [env],
               acc.failures + (if FailingEnvelope(env) then [FailureEntry(env.fields)] else []),
               Counts(c.inputFiles + Hit(Contribution(env.fields, "input", "rows")),
                      c.inputRows + Amount(Contribution(env.fields, "input", "rows")),
                      c.outputFiles + Hit(Contribution(env.fields, "output", "rows")),
                      c.outputRows + Amount(Contribution(env.fields, "output", "rows")),
                      c.redshiftLoaded + Amount(Contribution(env.fields, "load", "inserted_rows"))))
  {
  }

  /** There is no failure record exactly when no envelope is failing. */
  lemma {:induction false} FailuresOfEmpty(envs: seq<Json>)
    ensures FailuresOf(envs) == [] <==> forall i :: 0 <= i < |envs| ==> !FailingEnvelope(envs[i])
    ensures |FailuresOf(envs)| <= |envs|
    decreases |envs|
  {
    if envs != [] {
      var n := |envs| - 1;
      FailuresOfEmpty(envs[..n]);
      assert forall i :: 0 <= i < n ==> envs[..n][i] == envs[i];
    }
  }

  /** Python's `a < b` on two time stamps: strings compare by code point,
      integers (and booleans) numerically; other pairs raise. */
  function PyLess(a: Json, b: Json): Result<bool> {
    if a.JStr? && b.JStr? then Ok(LexLess(a.s, b.s))
    else if (a.JInt? || a.JBool?) && (b.JInt? || b.JBool?) then Ok(AsInt(a).value < AsInt(b).value)
    else Raised
  }

  /** Values the model's `<` orders against each other: all strings, or
      all integers and booleans. */
  predicate Orderable(xs: seq<Json>) {
    (forall i :: 0 <= i < |xs| ==> xs[i].JStr?) || (forall i :: 0 <= i < |xs| ==> xs[i].JInt? || xs[i].JBool?)
  }

  /** `min(xs)`: the first element no later element is less than. */
  function PyMin(xs: seq<Json>): (r: Result<Json>)
    requires xs != []
    ensures r.Ok? ==> r.value in xs
    ensures r.Raised? <==> |xs| >= 2 && !Orderable(xs)
    decreases |xs|
  {
    if |xs| == 1 then Ok(xs[0])
    else
      var m :- PyMin(xs[..|xs| - 1]);
      var less :- PyLess(xs[|xs| - 1], m);
      Ok(if less then xs[|xs| - 1] else m)
  }

  /** `max(xs)`: the first element no later element is greater than. */
  function PyMax(xs: seq<Json>): (r: Result<Json>)
    requires xs != []
    ensures r.Ok? ==> r.value in xs
    ensures r.Raised? <==> |xs| >= 2 && !Orderable(xs)
    decreases |xs|
  {
    if |xs| == 1 then Ok(xs[0])
    else
      var m :- PyMax(xs[..|xs| - 1]);
      var greater :- PyLess(m, xs[|xs| - 1]);
      Ok(if greater then xs[|xs| - 1] else m)
  }

  predicate AllStrings(xs: seq<Json>) {
    forall i :: 0 <= i < |xs| ==> xs[i].JStr?
  }

  /** Over string time stamps the minimum exists, is one of the stamps, and
      no stamp is less than it. */
  lemma {:induction false} MinStrings(xs: seq<Json>)
    requires xs != [] && AllStrings(xs)
    ensures PyMin(xs).Ok? && PyMin(xs).value in xs && PyMin(xs).value.JStr?
    ensures forall i :: 0 <= i < |xs| ==> !LexLess(xs[i].s, PyMin(xs).value.s)
    decreases |xs|
  {
    if |xs| > 1 {
      var n := |xs| - 1;
      MinStrings(xs[..n]);
      var lo := PyMin(xs[..n]).value;
      assert lo in xs;
      forall i | 0 <= i < |xs|
        ensures !LexLess(xs[i].s, PyMin(xs).value.s)
      {
        if i < n {
          assert xs[..n][i] == xs[i];
          if LexLess(xs[n].s, lo.s) && LexLess(xs[i].s, xs[n].s) {
            LexLessTransitive(xs[i].s, xs[n].s, lo.s);
          }
        } else {
          LexLessIrreflexive(xs[n].s);
        }
      }
    } else {
      LexLessIrreflexive(xs[0].s);
    }
  }

  /** Over string time stamps the maximum exists, is one of the stamps, and
      no stamp is greater than it. */
  lemma {:induction false} MaxStrings(xs: seq<Json>)
    requires xs != [] && AllStrings(xs)
    ensures PyMax(xs).Ok? && PyMax(xs).value in xs && PyMax(xs).value.JStr?
    ensures forall i :: 0 <= i < |xs| ==> !LexLess(PyMax(xs).value.s, xs[i].s)
    decreases |xs|
  {
    if |xs| > 1 {
      var n := |xs| - 1;
      MaxStrings(xs[..n]);
      var hi := PyMax(xs[..n]).value;
      assert hi in xs;
      forall i | 0 <= i < |xs|
        ensures !LexLess(PyMax(xs).value.s, xs[i].s)
      {
        if i < n {
          assert xs[..n][i] == xs[i];
          if LexLess(hi.s, xs[n].s) && LexLess(xs[n].s, xs[i].s) {
            LexLessTransitive(hi.s, xs[n].s, xs[i].s);
          }
        } else {
          LexLessIrreflexive(xs[n].s);
        }
      }
    } else {
      LexLessIrreflexive(xs[0].s);
    }
  }

  /** `started` and `ended`: the least and greatest `ts`, or the aggregation
      time when there is no envelope. */
  function Window(ts: seq<Json>, now: string): Result<(Json, Json)> {
    if ts == [] then Ok((JStr(now), JStr(now)))
    else
      var lo :- PyMin(ts);
      var hi := PyMax(ts);
      if hi.Raised? then Raised else Ok((lo, hi.value))
  }

  /** The `ts` member of each step. */
  function Stamps(steps: seq<Json>): (ts: seq<Json>)
    ensures |ts| == |steps|
    ensures forall i :: 0 <= i < |steps| ==> ts[i] == Field(steps[i], "ts")
  {
    seq(|steps|, i requires 0 <= i < |steps| => Field(steps[i], "ts"))
  }

  /** The summary built from the envelopes in listing order; `errText` is the
      text of the exception when one is raised. */
  function Summarize(envs: seq<Json>, batchId: string, now: string, errText: string): Summary {
    match Fold(envs)
    case Raised => ErrorSummary(batchId, errText, now)
    case Ok(acc) =>
      match Window(Stamps(acc.steps), now)
      case Raised => ErrorSummary(batchId, errText, now)
      case Ok(w) =>
        Summary(batchId, if acc.failures == [] then "OK" else "ERROR", w.0, w.1, acc.counts,
                acc.steps, acc.failures, now)
  }

  /** The stored documents under the listed keys. */
  function Bodies(objects: map<string, Json>, keys: seq<string>): (envs: seq<Json>)
    ensures |envs| == |keys|
    ensures forall i :: 0 <= i < |keys| && keys[i] in objects ==> envs[i] == objects[keys[i]]
  {
    seq(|keys|, i requires 0 <= i < |keys| => if keys[i] in objects then objects[keys[i]] else JNull)
  }

  /** `aggregate_evidences(batch_id)` against the store's current objects. */
  ghost function Aggregate(objects: map<string, Json>, batchId: string, now: string, errText: string): Summary {
    Summarize(Bodies(objects, Listing(objects, PerStepPrefix(batchId))), batchId, now, errText)
  }

  /** The status is "ERROR" exactly when some envelope is failing or the
      summary could not be built; otherwise `steps` is every envelope and
      there is one failure record per failing envelope, in order. */
  lemma SummarizeStatus(envs: seq<Json>, batchId: string, now: string, errText: string)
    ensures var s := Summarize(envs, batchId, now, errText);
      StatusOf(s) == "ERROR" <==> s.ErrorSummary? || exists i :: 0 <= i < |envs| && FailingEnvelope(envs[i])
    ensures var s := Summarize(envs, batchId, now, errText);
      s.Summary? ==> s.steps == envs && s.failures == FailuresOf(envs) && s.generatedAt == now && s.batchId == batchId
    ensures var s := Summarize(envs, batchId, now, errText);
      s.Summary? ==> (|s.failures| <= |envs| && forall k :: 0 <= k < |s.failures| ==>
        FailingEnvelope(Field(s.failures[k], "details")))
  {
    FoldMeaning(envs);
    FailuresOfEmpty(envs);
    FailuresOfRecords(envs);
  }

  /** A summary that was built has only object steps whose `input` and
      `output`, when present, are objects: an envelope with any other
      section makes the aggregation fail instead. */
  lemma SummaryStepsObjects(envs: seq<Json>, batchId: string, now: string, errText: string)
    ensures var s := Summarize(envs, batchId, now, errText);
      s.Summary? ==> forall i :: 0 <= i < |s.steps| ==>
        s.steps[i].JObj?
        && ("input" in s.steps[i].fields ==> s.steps[i].fields["input"].JObj?)
        && ("output" in s.steps[i].fields ==> s.steps[i].fields["output"].JObj?)
  {
    SummarizeStatus(envs, batchId, now, errText);
    FoldReadable(envs);
  }

  /** Every failure record names a failing envelope as its details. */
  lemma {:induction false} FailuresOfRecords(envs: seq<Json>)
    ensures forall k :: 0 <= k < |FailuresOf(envs)| ==>
      FailingEnvelope(Field(FailuresOf(envs)[k], "details"))
    decreases |envs|
  {
    if envs != [] {
      FailuresOfRecords(envs[..|envs| - 1]);
    }
  }

  /** The counters of a built summary are the counts and sums of the row
      fields. */
  lemma SummarizeCounts(envs: seq<Json>, batchId: string, now: string, errText: string)
    ensures var s := Summarize(envs, batchId, now, errText);
      s.Summary? ==> s.counts == Counts(RowCount(envs, "input", "rows"), RowSum(envs, "input", "rows"),
                                        RowCount(envs, "output", "rows"), RowSum(envs, "output", "rows"),
                                        RowSum(envs, "load", "inserted_rows"))
  {
    FoldMeaning(envs);
  }

  /** With string time stamps on every envelope the summary is built, and
      `started`/`ended` bound every stamp. */
  lemma SummarizeWindow(envs: seq<Json>, batchId: string, now: string, errText: string)
    requires forall i :: 0 <= i < |envs| ==> Readable(envs[i]) && Field(envs[i], "ts").JStr?
    ensures var s := Summarize(envs, batchId, now, errText);
      s.Summary? && s.started.JStr? && s.ended.JStr?
      && forall i :: 0 <= i < |envs| ==>
        (!LexLess(Field(envs[i], "ts").s, s.started.s) && !LexLess(s.ended.s, Field(envs[i], "ts").s))
  {
    FoldReadable(envs);
    FoldValues(envs);
    var acc := Fold(envs).value;
    var ts := Stamps(envs);
    assert Stamps(acc.steps) == ts;
    if envs != [] {
      MinStrings(ts);
      MaxStrings(ts);
      var lo, hi := PyMin(ts).value, PyMax(ts).value;
      assert Window(ts, now) == Ok((lo, hi));
      var s := Summarize(envs, batchId, now, errText);
      assert s.started == lo && s.ended == hi;
      forall i | 0 <= i < |envs|
        ensures !LexLess(Field(envs[i], "ts").s, s.started.s) && !LexLess(s.ended.s, Field(envs[i], "ts").s)
      {
        assert ts[i] == Field(envs[i], "ts");
      }
    }
  }

  /** No envelope: status OK, all counters zero, no failures, and the window
      is the aggregation time. */
  lemma SummarizeEmpty(batchId: string, now: string, errText: string)
    ensures Summarize([], batchId, now, errText) == Summary(batchId, "OK", JStr(now), JStr(now), ZeroCounts, [], [], now)
  {
  }

  /** The summary depends only on the objects under the batch's prefix. */
  lemma AggregateLocal(o1: map<string, Json>, o2: map<string, Json>, batchId: string, now: string, errText: string)
    requires forall k :: PerStepPrefix(batchId) <= k ==> (k in o1 <==> k in o2)
    requires forall k :: PerStepPrefix(batchId) <= k && k in o1 ==> o1[k] == o2[k]
    ensures Aggregate(o1, batchId, now, errText) == Aggregate(o2, batchId, now, errText)
  {
    var prefix := PerStepPrefix(batchId);
    ListingLocal(o1, o2, prefix);
    var keys := Listing(o1, prefix);
    ListingSpec(o1, prefix);
    assert Bodies(o1, keys) == Bodies(o2, keys);
  }

  /** A failed pass stays failed: the loop can stop at the first envelope it
      cannot read. */
  lemma {:induction false} FoldRaisedPrefix(envs: seq<Json>, i: nat)
    requires i <= |envs| && Fold(envs[..i]).Raised?
    ensures Fold(envs).Raised?
    decreases |envs| - i
  {
    if i < |envs| {
      assert envs[..i + 1][..i] == envs[..i];
      FoldRaisedPrefix(envs, i + 1);
    } else {
      assert envs[..i] == envs;
    }
  }

  /** One more envelope is one more pass of the loop body. */
  lemma FoldNext(envs: seq<Json>, i: nat, acc: Acc)
    requires i < |envs| && Fold(envs[..i]) == Ok(acc)
    ensures Fold(envs[..i + 1]) == StepEnvelope(acc, envs[i])
  {
    assert envs[..i + 1][..i] == envs[..i];
  }

  /** The loop body for one envelope: append it to the steps, add its row
      counts, and record it when it is failing. */
  method Tally(acc: Acc, evidence: Json) returns (next: Result<Acc>)
    ensures next == StepEnvelope(acc, evidence)
  {
    if !evidence.JObj? {
      return Raised;
    }
    var inp := Contribution(evidence.fields, "input", "rows");
    var out := Contribution(evidence.fields, "output", "rows");
    var load := Contribution(evidence.fields, "load", "inserted_rows");
    if inp.Raised? || out.Raised? || load.Raised? {
      return Raised;
    }
    var counts := acc.counts;
    if inp.value.Some? {
      counts := counts.(inputRows := counts.inputRows + inp.value.value, inputFiles := counts.inputFiles + 1);
    }
    if out.value.Some? {
      counts := counts.(outputRows := counts.outputRows + out.value.value, outputFiles := counts.outputFiles + 1);
    }
    if load.value.Some? {
      counts := counts.(redshiftLoaded := counts.redshiftLoaded + load.value.value);
    }
    var failures := acc.failures;
    if Failing(evidence.fields) {
      failures := failures + [FailureEntry(evidence.fields)];
    }
    return Ok(Acc(acc.steps + [evidence], failures, counts));
  }

  /** The aggregation loop over the store's listing. */
  method AggregateEvidences(store: Store, batchId: string, now: string, errText: string) returns (summary: Summary)
    ensures summary == Aggregate(store.objects, batchId, now, errText)
  {
    var keys := store.List(PerStepPrefix(batchId));
    ListingSpec(store.objects, PerStepPrefix(batchId));
    ghost var envs := Bodies(store.objects, keys);
    var acc := Acc([], [], ZeroCounts);
    var i := 0;
    while i < |keys|
      invariant 0 <= i <= |keys|
      invariant Fold(envs[..i]) == Ok(acc)
    {
      assert keys[i] in store.objects;
      var evidence := store.objects[keys[i]];
      FoldNext(envs, i, acc);
      var next := Tally(acc, evidence);
      if next.Raised? {
        FoldRaisedPrefix(envs, i + 1);
        return ErrorSummary(batchId, errText, now);
      }
      acc := next.value;
      i := i + 1;
    }
    assert envs[..|keys|] == envs;
    var window := Window(Stamps(acc.steps), now);
    if window.Raised? {
      return ErrorSummary(batchId, errText, now);
    }
    summary := Summary(batchId, if acc.failures == [] then "OK" else "ERROR", window.value.0, window.value.1,
                       acc.counts, acc.steps, acc.failures, now);
  }

  function CountsJson(c: Counts): Json {
    JObj(map["input_files" := JInt(c.inputFiles), "input_rows" := JInt(c.inputRows),
             "output_files" := JInt(c.outputFiles), "output_rows" := JInt(c.outputRows),
             "redshift_loaded" := JInt(c.redshiftLoaded)])
  }

  /** The summary document written to `evidence/{batch_id}/summary.json`. */
  function SummaryJson(s: Summary): (j: Json)
    ensures j.JObj? && Field(j, "status") == JStr(StatusOf(s)) && Field(j, "batch_id") == JStr(s.batchId)
    ensures Field(j, "generated_at") == JStr(s.generatedAt)
  {
    match s
    case Summary(b, st, started, ended, counts, steps, failures, g) =>
      JObj(map["batch_id" := JStr(b), "status" := JStr(st), "started" := started, "ended" := ended,
               "counts" := CountsJson(counts), "steps" := JArr(steps), "failures" := JArr(failures),
               "generated_at" := JStr(g)])
    case ErrorSummary(b, err, g) =>
      JObj(map["batch_id" := JStr(b), "status" := JStr("ERROR"), "error" := JStr(err), "generated_at" := JStr(g)])
  }
}
