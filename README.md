# Dify database search server: a verified model of its core logic

`server.py` is an MCP server that searches a Dify PostgreSQL database. It
runs three read-only tools. Each one sends one SQL query and post-processes
the rows in Python.

- `search_dify_credentials` normalises the rows of three tables into plain
  dicts and summarises the counts.
- `search_workflows_by_plugin` decodes each workflow's graph and reports
  the tool nodes whose provider or tool name contains a keyword.
- `search_workflows_by_llm` does the same for LLM nodes, by model name or
  provider.

The server also keeps a lazily created connection pool and wraps its
HTTP app in a bearer-token middleware.

This project models that post-processing, the pool slot and the token
gate in Dafny, and proves what each promises. The database rows and the
decoded graphs are inputs.

- `wrappers.dfy`: `Option`.
- `py_values.dfy` (`PyValues`): the Python values the code handles. Dicts
  are insertion-ordered lists of pairs. Also `.get`, `d[k] = v`, the truth
  value, `str()`, `str.lower()` (ASCII), `in` on strings and `str.join`.
- `collect.dfy` (`Collect`): mapping over a list, and keeping the present
  results of a list of optional results, in order. Both workflow loops have
  this shape.
- `row_format.dfy` (`RowFormat`): `_format_rows`. Its two loops are
  methods proved against the function `Formatted`.
- `credential_search.dfy` (`CredentialSearch`): the result dict and the
  summary of `search_dify_credentials`.
- `graph_match.dfy` (`GraphMatch`): the node loop shared by both workflow
  searches.
  - Every unguarded `.get`, `.lower()` and iteration is a precondition.
    These are the inputs on which the source raises.
  - The LLM model and provider fields are read two ways, exactly as the
    source reads them.
- `workflow_search.dfy` (`WorkflowSearch`): the row loop, the result
  entries and the summaries of both workflow searches.
- `connection_pool.dfy` (`ConnectionPool`): the `_pool` slot as a class,
  with `get_pool` and `close_pool` as methods.
- `auth.dfy` (`Auth`): the decision `APIKeyAuthMiddleware.__call__` takes.
  This is bearer authentication in the sense of section 2.1 of RFC 6750.
  The whole header is compared case-sensitively.

## Model

| member | source | states |
|---|---|---|
| PyValues.Lookup | server.py:236-237 | `d.get(k)` finds a value exactly when `k` is a key of `d`, and the value found is stored under `k` |
| PyValues.Store | server.py:99-102 | after `d[k] = v`, `k` maps to `v` and every other key maps to what it did before. An existing key keeps its place; a new key goes last |
| PyValues.StoreNewKey | server.py:133-172 | assigning a key the dict does not hold appends the pair at the end |
| PyValues.StoreThreeNewKeys | server.py:118-172 | three assignments of distinct keys to an empty dict give exactly those three pairs, in assignment order |
| PyValues.NatToDecimal | server.py:177 | `str(n)` of a count is a non-empty string of decimal digits with no leading zero |
| PyValues.DecimalRoundTrip | server.py:177 | the digits `str(n)` writes read back as `n` |
| PyValues.IntToDecimalReadsBack | server.py:102 | `str(i)` of an int starts with a minus sign exactly when `i < 0`, and its digits read back as the magnitude |
| PyValues.Lower | server.py:219 | `lower()` keeps the length and leaves no upper-case ASCII letter |
| PyValues.ContainsAt | server.py:247-248 | `kw in s` holds exactly when `kw` occurs in `s` at some position |
| PyValues.ContainsTrivia | server.py:247-248 | the empty keyword is in every string, and every string is in itself |
| RowFormat.Normalize | server.py:98-102 | the value rule: the result is None exactly when the value is None; a dict or list is unchanged; any other value becomes its `str()` text |
| RowFormat.FormatRowContents | server.py:96-102 | the dict built for a record has a key exactly for each projected column, holding the normalised value of that column |
| RowFormat.FormatRowKeysInOrder | server.py:96-102 | with no repeated column, the dict's keys are the projection, in projection order |
| RowFormat.FormatRecord | server.py:96-103 | the inner loop builds exactly `FormatRow(row, columns)` |
| RowFormat.FormatRows | server.py:92-104 | `_format_rows` returns exactly `Formatted(rows, columns)`: one dict per record, in record order |
| RowFormat.FormattedShape | server.py:92-104 | as many dicts as records; with distinct columns each dict's keys are the projection in order, and each value is that column's normalised value |
| CredentialSearch.SummaryParts | server.py:175-177 | one summary part per table of `results`, in table order, each carrying that table's name and row count |
| CredentialSearch.SummaryPartCount | server.py:177 | the count written in a summary part reads back as the number of rows |
| CredentialSearch.Summarize | server.py:174-180 | the summary loop yields the parts joined with " \| " |
| CredentialSearch.SummaryOfThree | server.py:176-180 | three tables give the three parts separated by " \| " |
| CredentialSearch.SearchCredentials | server.py:117-183 | the keyword is echoed unchanged. `results` holds the three tables in fixed order, each mapped to its normalised rows. The summary is the three parts with each table's row count |
| CredentialSearch.ProjectionsHaveNoRepeats | server.py:133-172 | none of the three projections repeats a column, so `FormattedShape` gives each table's keys in projection order |
| GraphMatch.MatchNode | server.py:236-254 | the loop body yields an entry exactly for a node of the wanted type whose first or second field contains the keyword. That entry carries id, title and the two fields |
| GraphMatch.MatchesExact | server.py:235-254 | the reported nodes are exactly the hits, each once, in document order, each with its own entry |
| GraphMatch.MatchesSnoc | server.py:235-254 | one more node appends its entry if it is a hit, and nothing otherwise |
| GraphMatch.CollectMatches | server.py:233-254 | the node loop returns exactly `Matches(kind, nodes, kw)` |
| GraphMatch.NoNodeOfKind | server.py:239-241 | a graph without a node of the wanted type reports nothing |
| GraphMatch.EmptyKeywordMatchesEveryNodeOfKind | server.py:247-248 | with the empty keyword a node is reported exactly when it has the wanted type |
| GraphMatch.NullModelReadsAsNone | server.py:328-329 | a present but null `model` gives the model name "None", and the provider comes from `data.provider` |
| GraphMatch.AbsentModelReadsAsEmpty | server.py:328-329 | an absent `model` gives the empty model name, and the provider comes from `data.provider` |
| GraphMatch.FieldEqualToKeywordMatches | server.py:240-248 | a node of the wanted type one of whose two searched fields equals the keyword up to letter case is a hit, so it is reported |
| GraphMatch.UpperCaseKeywordMatches | server.py:332-333 | keyword "GPT" matches model "gpt-4" |
| GraphMatch.SingleNodeGraph | server.py:232-254 | a graph with one node reports that node exactly when it is a hit |
| GraphMatch.SearchToolFields | server.py:236-251 | the example tool node's type, provider, tool name, id and title as the `.get` calls read them |
| GraphMatch.GoogleInProvider | server.py:247-248 | "google" is in the lower-cased "google_search" |
| GraphMatch.SearchToolNodeIsHit | server.py:240-254 | the example tool node is a hit for "google" and is reported with id "n1", title "Search", its provider and its tool name |
| GraphMatch.ToolNodeExample | server.py:232-254 | a graph holding the example tool node reports exactly that node for keyword "google" |
| GraphMatch.ClaudeFields | server.py:328-329 | when `data.model` is a dict, the model name and provider are read from it |
| GraphMatch.ClaudeInModelName | server.py:332-333 | "claude" is in the lower-cased "claude-3" |
| GraphMatch.ClaudeNodeIsHit | server.py:325-339 | the example LLM node is a hit for "claude" and is reported with an empty id |
| GraphMatch.LlmNodeExample | server.py:317-339 | a graph holding the example LLM node reports exactly that node for keyword "claude" |
| WorkflowSearch.HitsExact | server.py:222-262 | results are exactly the rows with a matching node, in row order, each once, with `app_id` as a string, `app_name` or "", and `updated_at` as a string or None. A row with a missing or undecodable graph contributes nothing, and every result has a match |
| WorkflowSearch.HitsSnoc | server.py:256-262 | one more row appends its entry if it has a matching node, and nothing otherwise |
| WorkflowSearch.ScanRows | server.py:222-262 | the row loop returns exactly `Hits(kind, rows, kw)` |
| WorkflowSearch.SummaryCountReadsBack | server.py:265 | the count written in either summary line reads back as the number of results |
| WorkflowSearch.SearchWorkflowsByPlugin | server.py:218-268 | the keyword is echoed. The results are the tool-node hits for the lower-cased keyword. The summary states their number and quotes the original keyword |
| WorkflowSearch.SearchWorkflowsByLlm | server.py:303-353 | the same for LLM nodes, with the LLM summary line |
| Auth.LastHeaderSpec | server.py:379-380 | the last header of a name is found exactly when such a header exists, and no later header has that name |
| Auth.HeaderDictKeepsLast | server.py:379 | `dict(headers)` keeps the last value given for each name |
| Auth.Authorize | server.py:368-390 | the decision is to call the app or to send 401 with the fixed body. Non-http/websocket scopes and an empty configured key always call the app |
| Auth.AuthorizeDecision | server.py:368-390 | the app is called exactly when the scope is not http/websocket, or no key is set, or the last `authorization` header is "Bearer " + key. Otherwise the answer is 401 with `{"error": "Unauthorized", "message": "Invalid or missing API key"}` |
| Auth.MissingHeaderRejected | server.py:379-388 | with a key set, an http or websocket request without an `authorization` header is refused, and so is one without headers |
| Auth.LowerCaseSchemeRejected | server.py:382 | "bearer <key>" in lower case is refused |
| Auth.LaterHeaderWins | server.py:379-382 | with two `authorization` headers the later one decides |
| ConnectionPool.Pool.constructor | server.py:40-48 | a new pool records its settings and is open |
| ConnectionPool.Pool.Close | server.py:55 | closing marks the pool closed |
| ConnectionPool.PoolHolder.constructor | server.py:34 | the slot starts empty |
| ConnectionPool.PoolHolder.GetPool | server.py:37-49 | an existing pool is returned and nothing is created. An empty slot gets exactly one new open pool for `cfg` with sizes 1 to 5, which is stored and returned |
| ConnectionPool.PoolHolder.ClosePool | server.py:52-56 | the slot ends empty and no pool is created. A held pool is closed; an empty slot leaves the state unchanged |

## Left out

- The SQL queries are not modelled: `ILIKE` with the `%keyword%` pattern, `DISTINCT ON`, `ORDER BY … DESC`, `LIMIT 50` and `LEFT JOIN`. The database evaluates them, so their rows are inputs.
- The asyncpg pool internals, `pool.acquire()` and async scheduling are not modelled. Two first calls of `get_pool` interleaved at the `await` could each create a pool; the model runs calls one at a time.
- Failures of `create_pool` and `pool.close()` are not modelled.
- The text of `json.loads` is not parsed. A graph field is already decoded, missing, or marked as failing to decode.
- The `json.dumps` formatting of the outputs is not modelled. The envelopes are datatypes, and the output dicts' key names (`node_id`, `matching_tools`, …) are datatype fields.
- `str.lower()` is ASCII-only; the Unicode case mappings are not modelled.
- `str()` of a container uses a simplified `repr`: single quotes, no escaping.
- `str()` of a float, a timestamp or a UUID is carried as its text (`Float`, `Rendered`), not computed.
- `_get_db_config` and its environment reads and `int()` port parsing are not modelled; nor is reading `MCP_API_KEY`. The configuration and the key are parameters.
- ASGI header names and values are taken as already-decoded strings. The `bytes.decode()` of the header, and the error it raises on invalid UTF-8, are not modelled.
- FastMCP tool registration, Starlette/uvicorn startup, `receive`/`send` and the `JSONResponse` encoding are not modelled.
- Auth.Authorize: the ASGI `scope["type"]` lookup is total here. A scope without a type, which raises in the source, is not modelled.
