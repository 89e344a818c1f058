/**
  The row loop and the result envelope of `search_workflows_by_plugin` and
  `search_workflows_by_llm`.  The query executor's rows are an input; for
  each row the graph text is decoded, its nodes are matched (GraphMatch),
  and a row with at least one match becomes one result entry.
*/
module WorkflowSearch {
  import opened Wrappers
  import opened PyValues
  import opened Collect
  import opened GraphMatch

  /** The `graph` column of a workflow row, as the row loop sees it. */
  datatype GraphField =
    | Missing               // NULL or the empty string: `if not graph_str: continue`
    | Unparseable           // `json.loads` raised JSONDecodeError or TypeError
    | Parsed(graph: Value)  // what `json.loads` returned

  /** One row of the workflow query: `app_id`, `app_name`, `graph`, `updated_at`. */
  datatype WorkflowRow = WorkflowRow(appId: Value, appName: Value, graph: GraphField, updatedAt: Value)

  /** One result entry: a workflow with the nodes that matched in it. */
  datatype WorkflowHit = WorkflowHit(appId: string, appName: Value, matches: seq<NodeMatch>, updatedAt: Option<string>)

  /** The envelope a workflow search returns (before JSON encoding). */
  datatype SearchOutput = SearchOutput(summary: string, keyword: string, results: seq<WorkflowHit>)

  /** The row's node loop runs without raising (rows with no usable graph are skipped first). */
  predicate RowSafe(kind: Kind, row: WorkflowRow, kw: string)
  {
    row.graph.Parsed? ==> GraphSafe(kind, row.graph.graph, kw)
  }

  predicate RowsSafe(kind: Kind, rows: seq<WorkflowRow>, kw: string)
  {
    forall row :: row in rows ==> RowSafe(kind, row, kw)
  }

  /** The matching nodes of a row; none when its graph is missing or does not decode. */
  function RowMatches(kind: Kind, row: WorkflowRow, kw: string): seq<NodeMatch>
    requires RowSafe(kind, row, kw)
  {
    if row.graph.Parsed? then Matches(kind, GraphNodes(kind, row.graph.graph, kw), kw) else []
  }

  /**
    The entry a row contributes, if any: `app_id` as a string, `app_name`
    or "" when it is false, the matching nodes, and `updated_at` as a string
    or None when it is false.
  */
  function HitOf(kind: Kind, row: WorkflowRow, kw: string): Option<WorkflowHit>
    requires RowSafe(kind, row, kw)
  {
    var ms := RowMatches(kind, row, kw);
    if ms == [] then None
    else Some(WorkflowHit(PyStr(row.appId),
                          if Truthy(row.appName) then row.appName else Str(""),
                          ms,
                          if Truthy(row.updatedAt) then Some(PyStr(row.updatedAt)) else None))
  }

  /** `HitOf` for a fixed kind and keyword, as a function of the row. */
  function RowScanner(kind: Kind, kw: string): WorkflowRow --> Option<WorkflowHit>
  {
    row requires RowSafe(kind, row, kw) => HitOf(kind, row, kw)
  }

  /** What every row contributes, in row order. */
  function Contributions(kind: Kind, rows: seq<WorkflowRow>, kw: string): seq<Option<WorkflowHit>>
    requires RowsSafe(kind, rows, kw)
  {
    Map(RowScanner(kind, kw), rows)
  }

  /** The result list: the entries of the rows that contribute one, in row order. */
  function Hits(kind: Kind, rows: seq<WorkflowRow>, kw: string): seq<WorkflowHit>
    requires RowsSafe(kind, rows, kw)
  {
    Somes(Contributions(kind, rows, kw))
  }

  /** The positions of the rows that contribute an entry, in increasing order. */
  function HitRows(kind: Kind, rows: seq<WorkflowRow>, kw: string): seq<nat>
    requires RowsSafe(kind, rows, kw)
  {
    SomePositions(Contributions(kind, rows, kw))
  }

  /**
    The results are exactly the entries of the rows that contribute one,
    each once, in row order.  A row whose graph is missing or does not
    decode contributes nothing, and every result has at least one matching
    node.
  */
  lemma HitsExact(kind: Kind, rows: seq<WorkflowRow>, kw: string)
    requires RowsSafe(kind, rows, kw)
    ensures var r, p := Hits(kind, rows, kw), HitRows(kind, rows, kw);
      && |r| == |p| <= |rows|
      && (forall j :: 0 <= j < |p| ==> p[j] < |rows| && HitOf(kind, rows[p[j]], kw) == Some(r[j]))
      && (forall j, k :: 0 <= j < k < |p| ==> p[j] < p[k])
      && (forall i :: 0 <= i < |rows| ==> (i in p <==> RowMatches(kind, rows[i], kw) != []))
      && (forall i :: 0 <= i < |rows| && !rows[i].graph.Parsed? ==> i !in p)
      && (forall j :: 0 <= j < |r| ==> r[j].matches != [])
  {
    SomesExact(Contributions(kind, rows, kw));
  }

  /** One more row adds its entry, if any, to the end of the results. */
  lemma HitsSnoc(kind: Kind, rows: seq<WorkflowRow>, i: nat, kw: string)
    requires RowsSafe(kind, rows, kw)
    requires i < |rows|
    ensures RowsSafe(kind, rows[..i], kw) && RowsSafe(kind, rows[..i + 1], kw)
    ensures Hits(kind, rows[..i + 1], kw)
         == Hits(kind, rows[..i], kw) + (if HitOf(kind, rows[i], kw).Some? then [HitOf(kind, rows[i], kw).value] else [])
  {
    MapSnoc(RowScanner(kind, kw), rows, i);
    SomesSnoc(Contributions(kind, rows[..i], kw), HitOf(kind, rows[i], kw));
  }

  /**
    The row loop: skip rows whose graph is missing or does not decode, run
    the node loop on the others, and append an entry for every row with at
    least one matching node.
  */
  method ScanRows(kind: Kind, rows: seq<WorkflowRow>, keywordLower: string) returns (results: seq<WorkflowHit>)
    requires RowsSafe(kind, rows, keywordLower)
    ensures results == Hits(kind, rows, keywordLower)
  {
    results := [];
    for i := 0 to |rows|
      invariant results == Hits(kind, rows[..i], keywordLower)
    {
      var row := rows[i];
      assert row in rows;
      HitsSnoc(kind, rows, i, keywordLower);
      if !row.graph.Parsed? {
        continue;
      }
      var graph := row.graph.graph;
      var nodes := Iteration(Get(graph, "nodes", List([]))).value;
      var matching := CollectMatches(kind, nodes, keywordLower);
      assert matching == RowMatches(kind, row, keywordLower);
      if matching != [] {
        results := results + [WorkflowHit(
          PyStr(row.appId),
          if Truthy(row.appName) then row.appName else Str(""),
          matching,
          if Truthy(row.updatedAt) then Some(PyStr(row.updatedAt)) else None)];
      }
    }
    assert rows[..|rows|] == rows;
  }

  /** The summary line of `search_workflows_by_plugin`. */
  function PluginSummary(count: nat, keyword: string): string
  {
    "找到 " + NatToDecimal(count) + " 个 workflow 使用了匹配 '" + keyword + "' 的 plugin"
  }

  /** The summary line of `search_workflows_by_llm`. */
  function LlmSummary(count: nat, keyword: string): string
  {
    "找到 " + NatToDecimal(count) + " 个 workflow 使用了匹配 '" + keyword + "' 的 LLM 模型"
  }

  /** The count written in either summary line reads back as the number of results. */
  lemma SummaryCountReadsBack(count: nat, keyword: string)
    ensures var digits := NatToDecimal(count);
      && PluginSummary(count, keyword)[3..3 + |digits|] == digits
      && LlmSummary(count, keyword)[3..3 + |digits|] == digits
      && IsDigits(digits) && DecimalValue(digits) == count
  {
    DecimalRoundTrip(count);
  }

  /**
    `search_workflows_by_plugin(plugin_keyword)` after the query: the
    keyword is lower-cased once, the rows are scanned for tool nodes, and
    the envelope echoes the keyword and counts the results.
  */
  method SearchWorkflowsByPlugin(pluginKeyword: string, rows: seq<WorkflowRow>) returns (out: SearchOutput)
    requires RowsSafe(ToolKind, rows, Lower(pluginKeyword))
    ensures out.keyword == pluginKeyword
    ensures out.results == Hits(ToolKind, rows, Lower(pluginKeyword))
    ensures out.summary == PluginSummary(|out.results|, pluginKeyword)
  {
    var keywordLower := Lower(pluginKeyword);
    var results := ScanRows(ToolKind, rows, keywordLower);
    out := SearchOutput(PluginSummary(|results|, pluginKeyword), pluginKeyword, results);
  }

  /**
    `search_workflows_by_llm(model_keyword)` after the query: the same row
    loop over LLM nodes, with its own summary line.
  */
  method SearchWorkflowsByLlm(modelKeyword: string, rows: seq<WorkflowRow>) returns (out: SearchOutput)
    requires RowsSafe(LlmKind, rows, Lower(modelKeyword))
    ensures out.keyword == modelKeyword
    ensures out.results == Hits(LlmKind, rows, Lower(modelKeyword))
    ensures out.summary == LlmSummary(|out.results|, modelKeyword)
  {
    var keywordLower := Lower(modelKeyword);
    var results := ScanRows(LlmKind, rows, keywordLower);
    out := SearchOutput(LlmSummary(|results|, modelKeyword), modelKeyword, results);
  }
}
