/**
 * One search request to the graph service, as the dashboard builds it
 * (`run_search`), and the lookup of the centroid node (`get_centroid_node`).
 * The graph service itself is an uninterpreted function from request to results.
 */
module ZepSearch {
  import opened Wrappers

  /** The four rerankers the dashboard offers. */
  datatype Reranker = CrossEncoder | Rrf | NodeDistance | EpisodeMentions

  /** The scope of one request; "both" never reaches the service. */
  datatype Scope = Nodes | Edges

  /** The keyword arguments of one `graph.search` call. */
  datatype SearchCall = SearchCall(
    groupId: string,
    query: string,
    scope: Scope,
    limit: int,
    reranker: Reranker,
    centerNodeUuid: Option<string>)

  datatype NodeRecord = NodeRecord(uuid: string, summary: string)
  datatype EdgeRecord = EdgeRecord(fact: string)
  datatype SearchResults = SearchResults(nodes: seq<NodeRecord>, edges: seq<EdgeRecord>)

  /** The graph service's answers, seen as a deterministic oracle. */
  type Service = SearchCall -> SearchResults

  /**
   * The client of the graph service: it answers with `answer` and keeps, as
   * a ghost log, every request it has been sent, in order.
   */
  class GraphService {
    const answer: Service
    ghost var sent: seq<SearchCall>

    constructor (answer: Service)
      ensures this.answer == answer && sent == []
    {
      this.answer := answer;
      sent := [];
    }

    /** `graph.search`: one request, one answer. */
    method Search(c: SearchCall) returns (r: SearchResults)
      modifies this
      ensures sent == old(sent) + [c]
      ensures r == answer(c)
    {
      r := answer(c);
      sent := sent + [c];
    }
  }

  /** Python truthiness of an optional string: not None and not empty. */
  predicate Truthy(s: Option<string>)
  {
    s.Some? && s.value != ""
  }

  /**
   * What the graph service demands of a request: a (non-empty) centre node
   * exactly when the reranker is node_distance.
   */
  predicate WellFormed(c: SearchCall)
  {
    (c.reranker == NodeDistance <==> c.centerNodeUuid.Some?) &&
    (c.centerNodeUuid.Some? ==> Truthy(c.centerNodeUuid))
  }

  /** The reranker actually sent: node_distance without a centre becomes rrf. */
  function RerankerSent(reranker: Reranker, centerNodeUuid: Option<string>): Reranker
  {
    if reranker == NodeDistance && !Truthy(centerNodeUuid) then Rrf else reranker
  }

  /**
   * The request `run_search` sends for its arguments, field by field.
   * Only the reranker may differ from what was passed in, and only by the
   * node_distance-to-rrf fallback.
   */
  function SearchRequest(groupId: string, query: string, scope: Scope, reranker: Reranker,
                         limit: int, centerNodeUuid: Option<string>): (r: SearchCall)
    ensures r.groupId == groupId && r.query == query && r.scope == scope && r.limit == limit
    ensures reranker != NodeDistance ==> r.reranker == reranker && r.centerNodeUuid == None
    ensures reranker == NodeDistance && Truthy(centerNodeUuid) ==>
              r.reranker == NodeDistance && r.centerNodeUuid == centerNodeUuid
    ensures reranker == NodeDistance && !Truthy(centerNodeUuid) ==>
              r.reranker == Rrf && r.centerNodeUuid == None
    ensures WellFormed(r)
  {
    SearchCall(groupId, query, scope, limit, RerankerSent(reranker, centerNodeUuid),
               if RerankerSent(reranker, centerNodeUuid) == NodeDistance then centerNodeUuid else None)
  }

  /**
   * `run_search`: builds the parameter record, then attaches the centre or
   * overwrites the reranker with rrf, and sends that one request.
   */
  method RunSearch(service: GraphService, groupId: string, query: string, scope: Scope,
                   reranker: Reranker, limit: int, centerNodeUuid: Option<string>)
    returns (params: SearchCall, results: SearchResults)
    modifies service
    ensures params == SearchRequest(groupId, query, scope, reranker, limit, centerNodeUuid)
    ensures service.sent == old(service.sent) + [params]
    ensures results == service.answer(params)
  {
    params := SearchCall(groupId, query, scope, limit, reranker, None);
    if reranker == NodeDistance {
      if Truthy(centerNodeUuid) {
        params := params.(centerNodeUuid := centerNodeUuid);
      } else {
        params := params.(reranker := Rrf);
      }
    }
    results := service.Search(params);
  }

  /**
   * The centre argument only matters for node_distance: for any other
   * reranker two calls that differ only in it send the same request.
   */
  lemma CentreIgnoredUnlessNodeDistance(groupId: string, query: string, scope: Scope, reranker: Reranker,
                                        limit: int, c1: Option<string>, c2: Option<string>)
    requires reranker != NodeDistance
    ensures SearchRequest(groupId, query, scope, reranker, limit, c1)
         == SearchRequest(groupId, query, scope, reranker, limit, c2)
  {
  }

  /** The fixed request of the centroid lookup: nodes, limit 1, rrf. */
  function CentroidRequest(groupId: string, centroidQuery: string): (c: SearchCall)
    ensures c.groupId == groupId && c.query == centroidQuery
    ensures c.scope == Nodes && c.limit == 1 && c.reranker == Rrf && c.centerNodeUuid == None
    ensures c == SearchRequest(groupId, centroidQuery, Nodes, Rrf, 1, None)
  {
    SearchCall(groupId, centroidQuery, Nodes, 1, Rrf, None)
  }

  /** The pair `(uuid, summary)` returned by `get_centroid_node`. */
  datatype Centroid = Centroid(uuid: Option<string>, summary: Option<string>)

  /** The first node of the results, or `(None, None)` when there is none. */
  function CentroidOf(results: SearchResults): (c: Centroid)
    ensures c.uuid.Some? <==> results.nodes != []
    ensures c.summary.Some? <==> results.nodes != []
    ensures results.nodes != [] ==>
              c.uuid.value == results.nodes[0].uuid && c.summary.value == results.nodes[0].summary
  {
    if results.nodes != [] then Centroid(Some(results.nodes[0].uuid), Some(results.nodes[0].summary))
    else Centroid(None, None)
  }

  /** `get_centroid_node`: one fixed search, then the first hit. */
  method GetCentroidNode(service: GraphService, groupId: string, centroidQuery: string)
    returns (uuid: Option<string>, summary: Option<string>)
    modifies service
    ensures service.sent == old(service.sent) + [CentroidRequest(groupId, centroidQuery)]
    ensures Centroid(uuid, summary) == CentroidOf(service.answer(CentroidRequest(groupId, centroidQuery)))
  {
    var results := service.Search(SearchCall(groupId, centroidQuery, Nodes, 1, Rrf, None));
    if results.nodes != [] {
      return Some(results.nodes[0].uuid), Some(results.nodes[0].summary);
    }
    return None, None;
  }
}
