# Query planning of the Zep query dashboard, and its `.env` writer

This project models the only local decision-making in the Zep query client. That client is a
Streamlit dashboard that forwards searches to the Zep graph service, plus a setup script that
writes the `.env` file. The model covers:

- **`run_search`** (module `ZepSearch`): how one request record is built from its arguments.
  A centre node is attached only for `node_distance`. When no non-empty centre is available,
  `node_distance` is silently replaced by `rrf`.
- **`get_centroid_node`** (`ZepSearch`): one fixed search (nodes, limit 1, `rrf`), then the
  first hit's `(uuid, summary)`, or `(None, None)` when there is none.
- **The main block** (module `ZepPlan`), which covers four things:
  - the reranker selection;
  - the run guards, and the message shown when a run is refused;
  - the single centroid lookup;
  - the exact ordered sequence of requests for the two modes and three scopes. `both` expands
    to nodes then edges.
- **`create_env_file`** (module `SetupEnv`), which covers:
  - the overwrite confirmation;
  - the prompts that repeat until a required value is non-empty;
  - the three lines written to `.env`.

The graph service is the class `GraphService`. It answers with a deterministic oracle
`answer: SearchCall -> SearchResults` and keeps a ghost log `sent` of every request it has
received. Only the centroid lookup's answer influences what happens next, so a run is
described by the requests it sends:

- `RunSpec` is the reference function of a run.
- `RunQueries` is the method that follows the script's loops and calls the service.
- `RunQueries`'s `ensures` proves that its outcome is `RunSpec`'s, and that the service log
  grows by exactly the requests of that outcome, in order.

`create_env_file` reads its answers from a sequence `inputs`; `os.path.exists(".env")` is the
boolean `envExists`. The file is the sequence of strings written to it. `EnvSpec` defines the
whole dialogue by "first non-empty answer from here on" (`FirstNonEmpty`). `CreateEnvFile` runs
the re-prompt loops and is proved equal to it.

Two behaviours of the code are worth stating plainly:

- **Errors abort the run.** An exception from any search ends the run. Failures are not
  captured per (scope, reranker) pair.
- **No centroid cache.** The centroid is looked up at most once per run because the lookup is
  only ever issued once, not because anything is memoised.

## Model

| member | source | states |
|---|---|---|
| `ZepSearch.SearchRequest` | zep_query_client.py:132-150 | group id, query, scope and limit are sent as passed. Any reranker but node_distance is sent unchanged without a centre. node_distance with a non-empty centre is sent with that centre. node_distance without one is sent as rrf without a centre. The request is always well formed for the service. |
| `ZepSearch.GraphService.Search` | zep_query_client.py:150 | one call to the service: the request is appended to the log and the answer is the oracle's |
| `ZepSearch.RunSearch` | zep_query_client.py:132-150 | building the dict and then mutating it step by step yields exactly `SearchRequest`. That one request is sent to the service, and its answer is returned. |
| `ZepSearch.CentreIgnoredUnlessNodeDistance` | zep_query_client.py:142-148 | for a reranker other than node_distance, the centre argument has no effect on the request |
| `ZepSearch.CentroidRequest` | zep_query_client.py:120-126 | the centroid search is fixed: nodes scope, limit 1, rrf, no centre. It is the request `run_search` would build for those arguments. |
| `ZepSearch.CentroidOf` | zep_query_client.py:127-129 | the pair is present exactly when the results hold a node, and it is then the first node's uuid and summary |
| `ZepSearch.GetCentroidNode` | zep_query_client.py:119-129 | sends exactly one request, the fixed centroid search, and returns `CentroidOf` of its results |
| `ZepPlan.TickedKeepsOrder` | zep_query_client.py:53-56 | filtering an ordered option list keeps the order and keeps exactly the ticked options |
| `ZepPlan.CompareSelection` | zep_query_client.py:46-56 | the compare selection is in the sidebar order (no repeats) and holds a reranker iff its box is ticked |
| `ZepPlan.Selection` | zep_query_client.py:48-56 | single mode selects exactly the chosen reranker. Compare mode selects the ticked options in sidebar order. |
| `ZepPlan.SelectRerankers` | zep_query_client.py:53-56 | the checkbox loop produces the compare-mode `Selection` |
| `ZepPlan.EachRerankerAt` | zep_query_client.py:265-271 | a compare loop sends one request per selected reranker, in selection order. The centre is passed only for node_distance. |
| `ZepPlan.CompareBothPlan` | zep_query_client.py:235-260 | compare mode with scope both sends 2n requests: all nodes requests in selection order, then all edges requests in selection order. The centre goes only to node_distance. |
| `ZepPlan.CompareOneScopePlan` | zep_query_client.py:261-271 | compare mode with one scope sends n requests on that scope, in selection order |
| `ZepPlan.SingleModePlan` | zep_query_client.py:206-227 | single mode sends one request, or nodes then edges for both. Each uses `selected_rerankers[0]` and the centre. |
| `ZepPlan.SingleAndCompareAgree` | zep_query_client.py:206-271 | with one reranker selected, both modes send the same requests |
| `ZepPlan.PlanSafe` | zep_query_client.py:206-275 | every planned request keeps group id, query and limit. None is node_distance without a non-empty centre. An attached centre is exactly the one found. |
| `ZepPlan.PlanFallsBackToRrf` | zep_query_client.py:142-148 | with no usable centre, no request is node_distance and none carries a centre |
| `ZepPlan.RunGuards` | zep_query_client.py:178-182 | searches run iff the button was pressed, the group id and the selection are non-empty, and node_distance is not selected without the centroid option. A refused run sends nothing. |
| `ZepPlan.RunMessages` | zep_query_client.py:279-285 | a run refused by the main guard shows "enter a group id", "select a reranker" or the idle hint, exactly in the cases of the `elif` chain |
| `ZepPlan.CentroidLookedUpOnce` | zep_query_client.py:190-195 | in a run, the centroid is looked up once, with the fixed request, exactly when the option is on and node_distance is selected. Otherwise it is never looked up. |
| `ZepPlan.RunNeverNodeDistanceWithoutCentre` | zep_query_client.py:141-148 | no request of any run is node_distance without a non-empty centre |
| `ZepPlan.RunFallsBackWhenCentroidMissing` | zep_query_client.py:192-203 | when the centroid search finds no node, every search of the run goes out without a centre and none as node_distance |
| `ZepPlan.MissingCentroidExample` | zep_query_client.py:192-227 | node_distance alone with an empty centroid search: exactly two requests, the lookup and then an rrf search |
| `ZepPlan.SelectionFeedsGuards` | zep_query_client.py:48-181 | for a selection the sidebar produces, single mode never lacks a reranker. Compare mode lacks one exactly when no box is ticked. node_distance without the centroid option is refused exactly when it was chosen or ticked. |
| `ZepPlan.SearchEach` | zep_query_client.py:240-247 | one compare loop sends to the service exactly the requests `EachReranker` defines, in selection order |
| `ZepPlan.SendPlan` | zep_query_client.py:206-275 | the mode and scope branches send to the service exactly the requests of `Plan`, in order |
| `ZepPlan.RunQueries` | zep_query_client.py:178-278 | the outcome is `RunSpec`'s, and the service receives exactly the requests of that outcome (the centroid lookup, if any, then the searches) and nothing else |
| `SetupEnv.AcceptsOverwriteExactly` | setup_env.py:19 | the overwrite proceeds iff the answer is "y" or "Y" |
| `SetupEnv.CancelledExactly` | setup_env.py:17-21 | the run ends `Cancelled` iff the file exists, an answer is given and it does not lowercase to "y". End of input also writes nothing, as `InputExhausted`. |
| `SetupEnv.FirstNonEmpty` | setup_env.py:24-27 | the index returned holds a non-empty answer and every answer before it (from the start) is empty. None means every remaining answer is empty. |
| `SetupEnv.Prompt` | setup_env.py:24 | `input()` yields the next answer, or end of input when none is left |
| `SetupEnv.ReadRequired` | setup_env.py:24-27 | the re-prompt loop stops on the first non-empty answer, or meets end of input if there is none |
| `SetupEnv.EnvLinesShape` | setup_env.py:39-45 | exactly three newline-terminated lines in a fixed order. They are `ZEP_API_KEY=<key>`, then `OPENAI_API_KEY=<key>` or the placeholder comment when skipped, then `ZEP_GROUP_ID=<id>`. |
| `SetupEnv.WrittenValues` | setup_env.py:23-45 | a written file holds, as the key, the first non-empty answer after the overwrite answer (from `KeyStart`). The next answer is the OpenAI key. The group id is the first non-empty answer after that. Key and group id are both non-empty. |
| `SetupEnv.ConfirmWithCapitalY` | setup_env.py:17-45 | "Y", then an empty key asked again, a skipped OpenAI key and a group id asked twice give the three expected lines |
| `SetupEnv.CreateEnvFile` | setup_env.py:12-45 | the confirmation, the two re-prompt loops and the three writes yield exactly `EnvSpec` |

## Left out

- Streamlit widgets, session state and rendering are presentation only:
  - `st.*` calls;
  - `display_node_results` and `display_edge_results`;
  - the columns, the spinners and the footer.

  The results of the searches are never looked at, so the model records only the requests.
- The graph-service and OpenAI network calls and the asyncio event loops are external services
  and scheduling. The service is the class `GraphService`, which answers from a fixed oracle.
- An exception raised by a search: in the code it aborts the rest of the run. Here the service
  always answers.
- Where the centroid query text comes from: manual text, the OpenAI completion, or the default
  "Environmental monitoring equipment" when the generate button was not pressed
  (zep_query_client.py:76-113). The completion is a foreign call, so the text is an input of
  the run (`RunInputs.centroidQuery`).
- The default of the "Use Centroid Node" checkbox (zep_query_client.py:68) is a widget
  default. `useCentroid` is an input.
- The result-limit slider's bounds (1 to 20): the limit is passed through unchanged and the
  bounds are not checked.
- The printed prompts and messages of `setup_env.py`, `load_dotenv` and `os.getenv`: console
  and configuration I/O.
- Real file I/O: the `.env` file is the sequence of strings written to it.
- `SetupEnv.Lower`: does not model `str.lower` outside ASCII, because nothing outside ASCII
  lowercases to "y".
- `SetupEnv.CreateEnvFile`: a read past the last answer (Python's `EOFError`) is modelled as
  the outcome `InputExhausted`, not as an exception.
- `test_zep_client.py` is a smoke script of live calls and prints. It is not part of this model.
