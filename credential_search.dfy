/**
  The result envelope of `search_dify_credentials`: one normalised result
  list per table, in a fixed table order, a summary line with one count per
  table, and the keyword echoed back.  The three queries themselves run in
  the database; their rows are inputs here.
*/
module CredentialSearch {
  import opened PyValues
  import opened RowFormat

  const CredentialColumns: seq<string> :=
    ["provider_name", "model_name", "model_type", "encrypted_config", "created_at", "updated_at"]

  const ToolProviderColumns: seq<string> :=
    ["provider", "encrypted_credentials", "created_at", "updated_at"]

  const WorkflowColumns: seq<string> :=
    ["app_id", "environment_variables", "created_at", "updated_at"]

  /** The `results` dict: table name to its normalised rows, in insertion order. */
  type Results = seq<(string, seq<Item>)>

  /** The envelope `search_dify_credentials` returns (before JSON encoding). */
  datatype Envelope = Envelope(summary: string, keyword: string, results: Results)

  /** One summary part: `[<table>] 找到 <n> 条记录`. */
  function SummaryPart(table: string, count: nat): string
  {
    "[" + table + "] 找到 " + NatToDecimal(count) + " 条记录"
  }

  /** The summary parts, one per table of `results`, in table order. */
  function SummaryParts(results: Results): (parts: seq<string>)
    ensures |parts| == |results|
    ensures forall i :: 0 <= i < |results| ==> parts[i] == SummaryPart(results[i].0, |results[i].1|)
  {
    if results == [] then []
    else SummaryParts(results[..|results| - 1]) + [SummaryPart(results[|results| - 1].0, |results[|results| - 1].1|)]
  }

  /** The count written in a summary part reads back as the number it was given. */
  lemma SummaryPartCount(table: string, count: nat)
    ensures var digits := NatToDecimal(count);
      && SummaryPart(table, count)[|table| + 6..|table| + 6 + |digits|] == digits
      && IsDigits(digits) && DecimalValue(digits) == count
  {
    DecimalRoundTrip(count);
  }

  /** The summary loop: one part per table in `results`, joined with " | ". */
  method Summarize(results: Results) returns (summary: string)
    ensures summary == Join(" | ", SummaryParts(results))
  {
    var parts: seq<string> := [];
    for i := 0 to |results|
      invariant parts == SummaryParts(results[..i])
    {
      var (table, items) := results[i];
      assert results[..i + 1][..i] == results[..i];
      parts := parts + [SummaryPart(table, |items|)];
    }
    assert results[..|results|] == results;
    summary := Join(" | ", parts);
  }

  /** The summary of three tables is their three parts, in table order. */
  lemma SummaryOfThree(results: Results)
    requires |results| == 3
    ensures Join(" | ", SummaryParts(results))
         == SummaryPart(results[0].0, |results[0].1|) + " | " + SummaryPart(results[1].0, |results[1].1|)
            + " | " + SummaryPart(results[2].0, |results[2].1|)
  {
    var parts := SummaryParts(results);
    assert parts == [parts[0], parts[1], parts[2]];
    JoinThree(" | ", parts[0], parts[1], parts[2]);
  }

  /** Three parts joined with " | ". */
  lemma JoinThree(sep: string, a: string, b: string, c: string)
    ensures Join(sep, [a, b, c]) == a + sep + b + sep + c
  {
    assert [a, b, c][..2] == [a, b];
    assert [a, b][..1] == [a];
    assert Join(sep, [a, b]) == a + sep + b;
  }

  /**
    `search_dify_credentials(keyword)` after the three queries: normalise
    each table's rows with its own projection, store them under the table
    name in fixed order, and summarise.  Every projected column must be
    present in the rows (`row[col]` raises otherwise).
  */
  method SearchCredentials(keyword: string, credentialRows: seq<Record>, toolProviderRows: seq<Record>,
                           workflowRows: seq<Record>) returns (out: Envelope)
    requires forall rec :: rec in credentialRows ==> HasColumns(rec, CredentialColumns)
    requires forall rec :: rec in toolProviderRows ==> HasColumns(rec, ToolProviderColumns)
    requires forall rec :: rec in workflowRows ==> HasColumns(rec, WorkflowColumns)
    ensures out.keyword == keyword
    ensures out.results == [("provider_model_credentials", Formatted(credentialRows, CredentialColumns)),
                            ("tool_builtin_providers", Formatted(toolProviderRows, ToolProviderColumns)),
                            ("workflows", Formatted(workflowRows, WorkflowColumns))]
    ensures out.summary == SummaryPart("provider_model_credentials", |credentialRows|) + " | "
                         + SummaryPart("tool_builtin_providers", |toolProviderRows|) + " | "
                         + SummaryPart("workflows", |workflowRows|)
  {
    var results: Results := [];
    var credentials := FormatRows(credentialRows, CredentialColumns);
    results := Store(results, "provider_model_credentials", credentials);
    var toolProviders := FormatRows(toolProviderRows, ToolProviderColumns);
    results := Store(results, "tool_builtin_providers", toolProviders);
    var workflows := FormatRows(workflowRows, WorkflowColumns);
    results := Store(results, "workflows", workflows);
    assert "provider_model_credentials"[0] == 'p' && "tool_builtin_providers"[0] == 't' && "workflows"[0] == 'w';
    StoreThreeNewKeys("provider_model_credentials", credentials, "tool_builtin_providers", toolProviders,
                      "workflows", workflows);

    var summary := Summarize(results);
    SummaryOfThree(results);
    out := Envelope(summary, keyword, results);
  }

  /** No projection repeats a column, so `FormattedShape` applies to each table. */
  lemma ProjectionsHaveNoRepeats()
    ensures Distinct(CredentialColumns) && Distinct(ToolProviderColumns) && Distinct(WorkflowColumns)
  {
  }
}
