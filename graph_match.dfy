/**
  The graph node matcher of the two workflow searches: walk the `nodes` of a
  decoded workflow graph and keep, in document order, the tool nodes (or the
  LLM nodes) whose identifying fields contain the lower-cased keyword.

  Every `.get` of the source is a read with a default; the reads that the
  source does NOT guard (`.get` on something that is not a dict, `.lower()`
  on something that is not a string, iterating something that is not
  iterable) raise, and are the preconditions collected in `NodeSafe` and
  `GraphSafe`.
*/
module GraphMatch {
  import opened Wrappers
  import opened PyValues
  import opened Collect

  /** Which node kind a search looks for: `data.type == "tool"` or `"llm"`. */
  datatype Kind = ToolKind | LlmKind {
    function TypeName(): string {
      match this
      case ToolKind => "tool"
      case LlmKind => "llm"
    }
  }

  /** One reported node: the dict appended to `matching_tools` or `matching_llms`. */
  datatype NodeMatch =
    | ToolMatch(nodeId: Value, nodeTitle: Value, providerId: Value, toolName: Value)
    | LlmMatch(nodeId: Value, nodeTitle: Value, model: Value, provider: Value)

  // ---------------------------------------------------------------------------
  // Reading a node
  // ---------------------------------------------------------------------------

  /** What `for x in v` iterates over; None when `v` is not iterable. */
  function Iteration(v: Value): Option<seq<Value>>
  {
    match v
    case List(items) => Some(items)
    case Dict(entries) => Some(seq(|entries|, i requires 0 <= i < |entries| => Str(entries[i].0)))
    case Str(s) => Some(seq(|s|, i requires 0 <= i < |s| => Str([s[i]])))
    case _ => None
  }

  /** `graph.get("nodes", [])`. */
  function NodesField(graph: Value): Value
    requires graph.Dict?
  {
    Get(graph, "nodes", List([]))
  }

  /** `node.get("data", {})`. */
  function Data(node: Value): Value
    requires node.Dict?
  {
    Get(node, "data", Dict([]))
  }

  /** The node is a dict and its `data` is a dict, so both `.get` calls succeed. */
  predicate Shaped(node: Value)
  {
    node.Dict? && Data(node).Dict?
  }

  /** `data.get("type", "")`. */
  function NodeType(node: Value): Value
    requires Shaped(node)
  {
    Get(Data(node), "type", Str(""))
  }

  /** `data.get("provider_id", "")`. */
  function ProviderId(node: Value): Value
    requires Shaped(node)
  {
    Get(Data(node), "provider_id", Str(""))
  }

  /** `data.get("tool_name", "")`. */
  function ToolName(node: Value): Value
    requires Shaped(node)
  {
    Get(Data(node), "tool_name", Str(""))
  }

  /**
    The LLM node's model name: `name` of `data.model` when that is a dict,
    otherwise `str(data.get("model", ""))`.
  */
  function ModelName(node: Value): Value
    requires Shaped(node)
  {
    var model := Get(Data(node), "model", Null);
    if model.Dict? then Get(model, "name", Str(""))
    else Str(PyStr(Get(Data(node), "model", Str(""))))
  }

  /**
    The LLM node's provider: `provider` of `data.model` when that is a dict,
    otherwise `str(data.get("provider", ""))`.
  */
  function ModelProvider(node: Value): Value
    requires Shaped(node)
  {
    var model := Get(Data(node), "model", Null);
    if model.Dict? then Get(model, "provider", Str(""))
    else Str(PyStr(Get(Data(node), "provider", Str(""))))
  }

  /**
    The match test `kw in a.lower() or kw in b.lower()` runs without raising:
    `a` is a string, and `b` is one too unless the first test already holds.
  */
  predicate OrTestSafe(kw: string, a: Value, b: Value)
  {
    a.Str? && (Contains(kw, Lower(a.s)) || b.Str?)
  }

  /** The match test itself, evaluated left to right with short-circuit `or`. */
  predicate OrTest(kw: string, a: Value, b: Value)
    requires OrTestSafe(kw, a, b)
  {
    Contains(kw, Lower(a.s)) || Contains(kw, Lower(b.s))
  }

  /** The loop body runs on `node` without raising, for keyword `kw` (already lower-cased). */
  predicate NodeSafe(kind: Kind, node: Value, kw: string)
  {
    && Shaped(node)
    && (NodeType(node) == Str(kind.TypeName()) ==>
          match kind
          case ToolKind => OrTestSafe(kw, ProviderId(node), ToolName(node))
          case LlmKind => OrTestSafe(kw, ModelName(node), ModelProvider(node)))
  }

  /** The node is reported: it has the wanted type and one of its two fields contains `kw`. */
  predicate IsHit(kind: Kind, node: Value, kw: string)
    requires NodeSafe(kind, node, kw)
  {
    && NodeType(node) == Str(kind.TypeName())
    && match kind
       case ToolKind => OrTest(kw, ProviderId(node), ToolName(node))
       case LlmKind => OrTest(kw, ModelName(node), ModelProvider(node))
  }

  /** The entry reported for a node. */
  function Entry(kind: Kind, node: Value): NodeMatch
    requires Shaped(node)
  {
    var data := Data(node);
    match kind
    case ToolKind =>
      // the fallback reads `node.get("data", {})` again, which is `data` itself
      ToolMatch(Get(node, "id", Str("")), Get(data, "title", Get(Data(node), "title", Str(""))),
                ProviderId(node), ToolName(node))
    case LlmKind =>
      LlmMatch(Get(node, "id", Str("")), Get(data, "title", Str("")),
               ModelName(node), ModelProvider(node))
  }

  // ---------------------------------------------------------------------------
  // The node loop
  // ---------------------------------------------------------------------------

  predicate NodesSafe(kind: Kind, nodes: seq<Value>, kw: string)
  {
    forall node :: node in nodes ==> NodeSafe(kind, node, kw)
  }

  /**
    The node loop of one graph runs without raising: the graph is a dict,
    its `nodes` can be iterated, and every node passes `NodeSafe`.
  */
  predicate GraphSafe(kind: Kind, graph: Value, kw: string)
  {
    && graph.Dict?
    && Iteration(NodesField(graph)).Some?
    && NodesSafe(kind, Iteration(NodesField(graph)).value, kw)
  }

  /** The nodes of a graph that `GraphSafe` admits. */
  function GraphNodes(kind: Kind, graph: Value, kw: string): seq<Value>
    requires GraphSafe(kind, graph, kw)
  {
    Iteration(NodesField(graph)).value
  }

  /** What the loop body yields for one node: its entry when it is a hit. */
  function Outcome(kind: Kind, node: Value, kw: string): Option<NodeMatch>
    requires NodeSafe(kind, node, kw)
  {
    if IsHit(kind, node, kw) then Some(Entry(kind, node)) else None
  }

  /** `Outcome` for a fixed kind and keyword, as a function of the node. */
  function Classifier(kind: Kind, kw: string): Value --> Option<NodeMatch>
  {
    node requires NodeSafe(kind, node, kw) => Outcome(kind, node, kw)
  }

  /** The outcome of every node, in node order. */
  function Outcomes(kind: Kind, nodes: seq<Value>, kw: string): seq<Option<NodeMatch>>
    requires NodesSafe(kind, nodes, kw)
  {
    Map(Classifier(kind, kw), nodes)
  }

  /** The entries of the hit nodes, in node order. */
  function Matches(kind: Kind, nodes: seq<Value>, kw: string): seq<NodeMatch>
    requires NodesSafe(kind, nodes, kw)
  {
    Somes(Outcomes(kind, nodes, kw))
  }

  /** The positions of the hit nodes, in increasing order. */
  function HitPositions(kind: Kind, nodes: seq<Value>, kw: string): seq<nat>
    requires NodesSafe(kind, nodes, kw)
  {
    SomePositions(Outcomes(kind, nodes, kw))
  }

  /**
    The matcher reports exactly the hit nodes, each once, in document order:
    the j-th entry is the entry of the node at the j-th hit position, the
    positions increase, and a node's position is among them exactly when it
    is a hit.
  */
  lemma MatchesExact(kind: Kind, nodes: seq<Value>, kw: string)
    requires NodesSafe(kind, nodes, kw)
    ensures var r, p := Matches(kind, nodes, kw), HitPositions(kind, nodes, kw);
      && |r| == |p| <= |nodes|
      && (forall j :: 0 <= j < |p| ==>
            p[j] < |nodes| && IsHit(kind, nodes[p[j]], kw) && r[j] == Entry(kind, nodes[p[j]]))
      && (forall j, k :: 0 <= j < k < |p| ==> p[j] < p[k])
      && (forall i :: 0 <= i < |nodes| ==> (i in p <==> IsHit(kind, nodes[i], kw)))
  {
    SomesExact(Outcomes(kind, nodes, kw));
  }

  /** A node list without a node of the wanted type yields no entry. */
  lemma {:induction false} NoNodeOfKind(kind: Kind, nodes: seq<Value>, kw: string)
    requires NodesSafe(kind, nodes, kw)
    requires forall node :: node in nodes ==> NodeType(node) != Str(kind.TypeName())
    ensures Matches(kind, nodes, kw) == []
  {
    var outcomes := Outcomes(kind, nodes, kw);
    forall i | 0 <= i < |nodes|
      ensures outcomes[i].None?
    {
      assert nodes[i] in nodes;
    }
    SomesOfNones(outcomes);
  }

  /** With the empty keyword every node of the wanted type is reported. */
  lemma EmptyKeywordMatchesEveryNodeOfKind(kind: Kind, node: Value)
    requires NodeSafe(kind, node, "")
    ensures IsHit(kind, node, "") <==> NodeType(node) == Str(kind.TypeName())
  {
    if NodeType(node) == Str(kind.TypeName()) {
      match kind
      case ToolKind => ContainsTrivia(Lower(ProviderId(node).s));
      case LlmKind => ContainsTrivia(Lower(ModelName(node).s));
    }
  }

  /**
    `for node in nodes:` with the per-node body: skip nodes of another type,
    read the two fields, and append an entry when either contains `kw`.
  */
  method CollectMatches(kind: Kind, nodes: seq<Value>, kw: string) returns (matches: seq<NodeMatch>)
    requires NodesSafe(kind, nodes, kw)
    ensures matches == Matches(kind, nodes, kw)
  {
    matches := [];
    for i := 0 to |nodes|
      invariant matches == Matches(kind, nodes[..i], kw)
    {
      var outcome := MatchNode(kind, nodes[i], kw);
      MatchesSnoc(kind, nodes, i, kw);
      if outcome.Some? {
        matches := matches + [outcome.value];
      }
    }
    assert nodes[..|nodes|] == nodes;
  }

  /** One more node adds its entry, if it is a hit, at the end. */
  lemma MatchesSnoc(kind: Kind, nodes: seq<Value>, i: nat, kw: string)
    requires NodesSafe(kind, nodes, kw)
    requires i < |nodes|
    ensures NodesSafe(kind, nodes[..i], kw) && NodesSafe(kind, nodes[..i + 1], kw)
    ensures Matches(kind, nodes[..i + 1], kw)
         == Matches(kind, nodes[..i], kw) + (if IsHit(kind, nodes[i], kw) then [Entry(kind, nodes[i])] else [])
  {
    MapSnoc(Classifier(kind, kw), nodes, i);
    SomesSnoc(Outcomes(kind, nodes[..i], kw), Outcome(kind, nodes[i], kw));
  }

  /**
    The body of `for node in nodes:`: skip a node of another type, read its
    two fields, and yield its entry when either contains `kw`.
  */
  method MatchNode(kind: Kind, node: Value, kw: string) returns (outcome: Option<NodeMatch>)
    requires NodeSafe(kind, node, kw)
    ensures outcome.Some? <==> IsHit(kind, node, kw)
    ensures outcome.Some? ==> outcome.value == Entry(kind, node)
  {
    var data := Get(node, "data", Dict([]));
    var nodeType := Get(data, "type", Str(""));
    if nodeType != Str(kind.TypeName()) {
      return None;
    }
    var a, b;
    match kind {
      case ToolKind =>
        a := Get(data, "provider_id", Str(""));
        b := Get(data, "tool_name", Str(""));
      case LlmKind =>
        var model := Get(data, "model", Null);
        a := if model.Dict? then Get(model, "name", Str("")) else Str(PyStr(Get(data, "model", Str(""))));
        b := if model.Dict? then Get(model, "provider", Str("")) else Str(PyStr(Get(data, "provider", Str(""))));
    }
    if Contains(kw, Lower(a.s)) || Contains(kw, Lower(b.s)) {
      var entry := match kind
        case ToolKind =>
          ToolMatch(Get(node, "id", Str("")),
                    Get(data, "title", Get(Get(node, "data", Dict([])), "title", Str(""))), a, b)
        case LlmKind =>
          LlmMatch(Get(node, "id", Str("")), Get(data, "title", Str("")), a, b);
      return Some(entry);
    }
    return None;
  }

  // ---------------------------------------------------------------------------
  // Field extraction facts and worked examples
  // ---------------------------------------------------------------------------

  /**
    An LLM node whose `data.model` is present but null: the model name is the
    text "None" (`str(None)`), and the provider falls back to `data.provider`.
  */
  lemma NullModelReadsAsNone(node: Value)
    requires Shaped(node)
    requires Lookup(Data(node).entries, "model") == Some(Null)
    ensures ModelName(node) == Str("None")
    ensures ModelProvider(node) == Str(PyStr(Get(Data(node), "provider", Str(""))))
  {
  }

  /**
    An LLM node whose `data.model` is absent: the model name is the empty
    string, and the provider is read from `data.provider`.
  */
  lemma AbsentModelReadsAsEmpty(node: Value)
    requires Shaped(node)
    requires Lookup(Data(node).entries, "model") == None
    ensures ModelName(node) == Str("")
    ensures ModelProvider(node) == Str(PyStr(Get(Data(node), "provider", Str(""))))
  {
  }

  /** The field is a string that equals `keyword` up to ASCII letter case. */
  predicate EqualsIgnoringCase(field: Value, keyword: string)
  {
    field.Str? && Lower(field.s) == Lower(keyword)
  }

  /**
    A node of the wanted type one of whose two searched fields equals the
    keyword, whatever the letter case of either, is reported.
  */
  lemma FieldEqualToKeywordMatches(kind: Kind, node: Value, keyword: string)
    requires NodeSafe(kind, node, Lower(keyword))
    requires NodeType(node) == Str(kind.TypeName())
    requires match kind
               case ToolKind => EqualsIgnoringCase(ProviderId(node), keyword) || EqualsIgnoringCase(ToolName(node), keyword)
               case LlmKind => EqualsIgnoringCase(ModelName(node), keyword) || EqualsIgnoringCase(ModelProvider(node), keyword)
    ensures IsHit(kind, node, Lower(keyword))
  {
    ContainsTrivia(Lower(keyword));
  }

  /** Matching ignores ASCII letter case: keyword "GPT" is in "gpt-4". */
  lemma UpperCaseKeywordMatches()
    ensures Contains(Lower("GPT"), Lower("gpt-4"))
  {
    assert Lower("GPT") == "gpt";
    assert Lower("gpt-4")[..3] == "gpt";
  }

  /** A graph with a single node reports that node exactly when it is a hit. */
  lemma SingleNodeGraph(kind: Kind, node: Value, kw: string)
    requires NodeSafe(kind, node, kw)
    ensures var graph := Dict([("nodes", List([node]))]);
            && GraphSafe(kind, graph, kw)
            && Matches(kind, GraphNodes(kind, graph, kw), kw) == if IsHit(kind, node, kw) then [Entry(kind, node)] else []
  {
    var graph := Dict([("nodes", List([node]))]);
    assert NodesField(graph) == List([node]);
    assert NodesSafe(kind, [node], kw) by {
      forall n | n in [node]
        ensures NodeSafe(kind, n, kw)
      {
        assert n == node;
      }
    }
    var o := Outcomes(kind, [node], kw);
    assert |o| == 1 && o[0] == Outcome(kind, node, kw);
    assert o == [] + [Outcome(kind, node, kw)];
    SomesSnoc([], Outcome(kind, node, kw));
  }

  /** The `data` of the tool node in the worked example below. */
  const SearchToolData: Value :=
    Dict([("type", Str("tool")), ("provider_id", Str("google_search")),
          ("tool_name", Str("search")), ("title", Str("Search"))])

  /** A tool node `n1` whose provider is "google_search". */
  const SearchToolNode: Value := Dict([("id", Str("n1")), ("data", SearchToolData)])

  /** Reading the example tool node's fields. */
  lemma SearchToolFields()
    ensures Shaped(SearchToolNode) && Data(SearchToolNode) == SearchToolData
    ensures NodeType(SearchToolNode) == Str("tool")
    ensures ProviderId(SearchToolNode) == Str("google_search")
    ensures ToolName(SearchToolNode) == Str("search")
    ensures Get(SearchToolNode, "id", Str("")) == Str("n1")
    ensures Get(SearchToolData, "title", Str("")) == Str("Search")
  {
    var entries := SearchToolData.entries;
    assert SearchToolNode.entries[1..] == [("data", SearchToolData)];
    assert entries[1..] == [("provider_id", Str("google_search")), ("tool_name", Str("search")), ("title", Str("Search"))];
    assert entries[1..][1..] == [("tool_name", Str("search")), ("title", Str("Search"))];
    assert entries[1..][1..][1..] == [("title", Str("Search"))];
  }

  /** "google" is in "google_search" once both are lower-cased. */
  lemma GoogleInProvider()
    ensures Lower("google") == "google"
    ensures Contains("google", Lower("google_search"))
  {
    assert Lower("google") == "google";
    assert Lower("google_search")[..6] == "google";
  }

  /** The example node is a hit for "google", reported with its id, title, provider and tool name. */
  lemma SearchToolNodeIsHit()
    ensures NodeSafe(ToolKind, SearchToolNode, "google") && IsHit(ToolKind, SearchToolNode, "google")
    ensures Entry(ToolKind, SearchToolNode) == ToolMatch(Str("n1"), Str("Search"), Str("google_search"), Str("search"))
  {
    SearchToolFields();
    GoogleInProvider();
  }

  /** A graph whose only node is the example tool node reports it for keyword "google". */
  lemma ToolNodeExample()
    ensures var graph := Dict([("nodes", List([SearchToolNode]))]);
            && GraphSafe(ToolKind, graph, "google")
            && Matches(ToolKind, GraphNodes(ToolKind, graph, "google"), "google")
               == [ToolMatch(Str("n1"), Str("Search"), Str("google_search"), Str("search"))]
  {
    SearchToolNodeIsHit();
    SingleNodeGraph(ToolKind, SearchToolNode, "google");
  }

  /** The `data` of the LLM node in the worked example below: its model is a dict. */
  const ClaudeModel: Value := Dict([("name", Str("claude-3")), ("provider", Str("anthropic"))])
  const ClaudeData: Value := Dict([("type", Str("llm")), ("model", ClaudeModel), ("title", Str("LLM"))])

  /** An LLM node without an id whose model dict names "claude-3". */
  const ClaudeNode: Value := Dict([("data", ClaudeData)])

  /** Reading the example LLM node's fields: name and provider come from the model dict. */
  lemma ClaudeFields()
    ensures Shaped(ClaudeNode) && Data(ClaudeNode) == ClaudeData
    ensures NodeType(ClaudeNode) == Str("llm")
    ensures ModelName(ClaudeNode) == Str("claude-3")
    ensures ModelProvider(ClaudeNode) == Str("anthropic")
    ensures Get(ClaudeNode, "id", Str("")) == Str("")
    ensures Get(ClaudeData, "title", Str("")) == Str("LLM")
  {
    var entries := ClaudeData.entries;
    assert Get(ClaudeData, "model", Null) == ClaudeModel;
    assert ClaudeModel.entries[1..] == [("provider", Str("anthropic"))];
    assert entries[1..][1..] == [("title", Str("LLM"))];
    assert Lookup(entries[1..], "title") == Some(Str("LLM"));
  }

  /** "claude" is in "claude-3" once both are lower-cased. */
  lemma ClaudeInModelName()
    ensures Lower("claude") == "claude"
    ensures Contains("claude", Lower("claude-3"))
  {
    assert Lower("claude") == "claude";
    assert Lower("claude-3")[..6] == "claude";
  }

  /** The example LLM node is a hit for "claude", reported with an empty id. */
  lemma ClaudeNodeIsHit()
    ensures NodeSafe(LlmKind, ClaudeNode, "claude") && IsHit(LlmKind, ClaudeNode, "claude")
    ensures Entry(LlmKind, ClaudeNode) == LlmMatch(Str(""), Str("LLM"), Str("claude-3"), Str("anthropic"))
  {
    ClaudeFields();
    ClaudeInModelName();
  }

  /** A graph whose only node is the example LLM node reports it for keyword "claude". */
  lemma LlmNodeExample()
    ensures var graph := Dict([("nodes", List([ClaudeNode]))]);
            && GraphSafe(LlmKind, graph, "claude")
            && Matches(LlmKind, GraphNodes(LlmKind, graph, "claude"), "claude")
               == [LlmMatch(Str(""), Str("LLM"), Str("claude-3"), Str("anthropic"))]
  {
    ClaudeNodeIsHit();
    SingleNodeGraph(LlmKind, ClaudeNode, "claude");
  }
}
