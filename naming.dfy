/** File-name sanitising, the object-store key layout of the evidence
    collector, and its two label lookups (component and file type). */
module Naming {
  import opened Results
  import opened Text
  import opened JsonValue

  /** The characters the pattern `[^0-9A-Za-z._/-]` does NOT match. */
  predicate Allowed(c: char) {
    '0' <= c <= '9' || 'A' <= c <= 'Z' || 'a' <= c <= 'z' || c == '.' || c == '_' || c == '/' || c == '-'
  }

  predicate AllAllowed(s: string) {
    forall i :: 0 <= i < |s| ==> Allowed(s[i])
  }

  /** Drops the leading run of characters that are not allowed. */
  function DropRun(s: string): (r: string)
    ensures |r| <= |s|
    ensures r == [] || Allowed(r[0])
    decreases |s|
  {
    if s != [] && !Allowed(s[0]) then DropRun(s[1..]) else s
  }

  /** `re.sub(r'[^0-9A-Za-z._/-]+', '_', s)`: every maximal run of characters
      outside the allowed set becomes a single underscore. */
  function Sanitize(s: string): (r: string)
    ensures AllAllowed(r)
    ensures |r| <= |s|
    ensures s != [] ==> r != []
    decreases |s|
  {
    if s == [] then []
    else if Allowed(s[0]) then [s[0]] + Sanitize(s[1..])
    else "_" + Sanitize(DropRun(s[1..]))
  }

  /** A string made of allowed characters only is left as it is. */
  lemma {:induction false} SanitizeFixed(s: string)
    requires AllAllowed(s)
    ensures Sanitize(s) == s
    decreases |s|
  {
    if s != [] {
      SanitizeFixed(s[1..]);
      assert s == [s[0]] + s[1..];
    }
  }

  /** `safe_filename(s)`: `s or 'unknown'`, then sanitised. */
  function SafeFilename(s: string): (r: string)
    ensures r != [] && AllAllowed(r)
  {
    Sanitize(if s == [] then "unknown" else s)
  }

  /** A missing name becomes "unknown"; sanitising twice is sanitising once;
      and a string is its own safe name exactly when it is non-empty and made
      of allowed characters. */
  lemma SafeFilenameIdempotent(s: string)
    ensures s == [] ==> SafeFilename(s) == "unknown"
    ensures SafeFilename(SafeFilename(s)) == SafeFilename(s)
    ensures SafeFilename(s) == s <==> (s != [] && AllAllowed(s))
  {
    SanitizeFixed("unknown");
    SanitizeFixed(SafeFilename(s));
    if s != [] && AllAllowed(s) {
      SanitizeFixed(s);
    }
  }

  /** `safe_filename(evidence.get('step', 'unknown'))`: a falsy step becomes
      "unknown"; a truthy step that is not a string makes `re.sub` raise. */
  function StepName(step: Json): (r: Result<string>)
    ensures !Truthy(step) ==> r == Ok(SafeFilename("unknown"))
    ensures step.JStr? ==> r == Ok(SafeFilename(step.s))
    ensures r.Raised? <==> Truthy(step) && !step.JStr?
  {
    if !Truthy(step) then Ok(SafeFilename("unknown"))
    else if step.JStr? then Ok(SafeFilename(step.s))
    else Raised
  }

  /** `evidence/{batch_id}/per-step/` */
  function PerStepPrefix(batchId: string): string {
    "evidence/" + batchId + "/per-step/"
  }

  /** `evidence/{batch_id}/per-step/{step}_{event_id}.json` */
  function PerStepKey(batchId: string, step: string, eventId: string): (k: string)
    ensures PerStepPrefix(batchId) <= k
  {
    PerStepPrefix(batchId) + step + "_" + eventId + ".json"
  }

  /** `evidence/{batch_id}/summary.json` */
  function SummaryKey(batchId: string): string {
    "evidence/" + batchId + "/summary.json"
  }

  /** `evidence/{batch_id}/report.html` */
  function ReportKey(batchId: string): string {
    "evidence/" + batchId + "/report.html"
  }

  /** Different batches have different summary and report keys, a summary
      key is never a report key, and for batch ids without `/` neither key
      of one batch lies under the per-step prefix of another (or the same)
      batch. */
  lemma OutputKeysApart(x: string, b: string)
    ensures SummaryKey(x) == SummaryKey(b) <==> x == b
    ensures ReportKey(x) == ReportKey(b) <==> x == b
    ensures SummaryKey(x) != ReportKey(b)
    ensures '/' !in x && '/' !in b ==> !(PerStepPrefix(b) <= SummaryKey(x)) && !(PerStepPrefix(b) <= ReportKey(x))
  {
    var sx, rx, sb, rb := SummaryKey(x), ReportKey(x), SummaryKey(b), ReportKey(b);
    assert sx[9..9 + |x|] == x && rx[9..9 + |x|] == x;
    assert sb[9..9 + |b|] == b && rb[9..9 + |b|] == b;
    assert sx[|sx| - 1] == 'n' && rb[|rb| - 1] == 'l';
    if '/' !in x && '/' !in b {
      var p := PerStepPrefix(b);
      assert p[9 + |b|] == '/' && p[10 + |b|] == 'p';
      assert sx[9 + |x|] == '/' && sx[10 + |x|] == 's';
      assert rx[9 + |x|] == '/' && rx[10 + |x|] == 'r';
      if |b| < |x| {
        assert sx[9 + |b|] == x[|b|] && rx[9 + |b|] == x[|b|];
      } else if |b| > |x| {
        assert p[9 + |x|] == b[|x|];
      }
    }
  }

  /** `raw-logs/{epoch}_{safe_filename(log_group)}.json` */
  function RawLogKey(epoch: nat, logGroup: string): string {
    "raw-logs/" + NatToString(epoch) + "_" + SafeFilename(logGroup) + ".json"
  }

  const OtherService := "その他のAWSサービス"

  const ComponentMap: map<string, string> := map[
    "prevalidate" := "Lambda関数",
    "glue_convert" := "AWS Glue Job",
    "redshift_load" := "Lambda関数",
    "finalize" := "Lambda関数",
    "monitoring" := "Lambda関数"]

  /** `get_component_type`: the Glue step is a Glue job, the four Lambda steps
      are Lambda functions, anything else is another service. */
  function ComponentType(step: string): (r: string)
    ensures r == "AWS Glue Job" <==> step == "glue_convert"
    ensures r == "Lambda関数" <==> step in {"prevalidate", "redshift_load", "finalize", "monitoring"}
    ensures r == OtherService <==> step !in ComponentMap
  {
    if step in ComponentMap then ComponentMap[step] else OtherService
  }

  /** `get_file_type`: the first of `.csv`, `.parquet`, `.json` that occurs
      anywhere in the path decides. */
  function FileType(path: string): (r: string)
    ensures r == "CSVファイル" <==> Contains(path, ".csv")
    ensures r == "Parquetファイル" <==> !Contains(path, ".csv") && Contains(path, ".parquet")
    ensures r == "JSONファイル" <==> !Contains(path, ".csv") && !Contains(path, ".parquet") && Contains(path, ".json")
    ensures r == "ファイル" <==> !Contains(path, ".csv") && !Contains(path, ".parquet") && !Contains(path, ".json")
  {
    if Contains(path, ".csv") then "CSVファイル"
    else if Contains(path, ".parquet") then "Parquetファイル"
    else if Contains(path, ".json") then "JSONファイル"
    else "ファイル"
  }
}
