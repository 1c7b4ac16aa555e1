/**
 * The dashboard's main block: which rerankers are selected, the guards that
 * decide whether anything runs, whether the centroid is looked up, and the
 * exact ordered sequence of search requests for each mode and scope.
 */
module ZepPlan {
  import opened Wrappers
  import opened ZepSearch

  datatype Mode = SingleReranker | CompareRerankers

  /** The scope radio button; `BothScopes` expands to nodes then edges. */
  datatype ScopeChoice = NodesOnly | EdgesOnly | BothScopes

  /** The reranker options, in the order the sidebar lists them. */
  const RerankerOptions: seq<Reranker> := [CrossEncoder, Rrf, NodeDistance, EpisodeMentions]

  /** Position of a reranker in `RerankerOptions`. */
  function Rank(r: Reranker): (k: nat)
    ensures k < |RerankerOptions| && RerankerOptions[k] == r
  {
    match r
    case CrossEncoder => 0
    case Rrf => 1
    case NodeDistance => 2
    case EpisodeMentions => 3
  }

  /** The rerankers of `options` whose checkbox is ticked, in order. */
  function Ticked(options: seq<Reranker>, ticked: Reranker -> bool): seq<Reranker>
  {
    if options == [] then []
    else
      var last := options[|options| - 1];
      Ticked(options[..|options| - 1], ticked) + (if ticked(last) then [last] else [])
  }

  /** A sequence of rerankers listed in strictly increasing sidebar order. */
  predicate InOptionOrder(s: seq<Reranker>)
  {
    forall i, j :: 0 <= i < j < |s| ==> Rank(s[i]) < Rank(s[j])
  }

  /**
   * Filtering keeps the option order and keeps exactly the ticked options.
   */
  lemma {:induction false} TickedKeepsOrder(options: seq<Reranker>, ticked: Reranker -> bool)
    requires InOptionOrder(options)
    ensures InOptionOrder(Ticked(options, ticked))
    ensures forall r :: r in Ticked(options, ticked) <==> r in options && ticked(r)
  {
    if options != [] {
      var init := options[..|options| - 1];
      var last := options[|options| - 1];
      assert options == init + [last];
      forall i, j | 0 <= i < j < |init| ensures Rank(init[i]) < Rank(init[j]) {
        assert init[i] == options[i] && init[j] == options[j];
      }
      TickedKeepsOrder(init, ticked);
      var t := Ticked(init, ticked);
      var tail := if ticked(last) then [last] else [];
      assert Ticked(options, ticked) == t + tail;
      forall i | 0 <= i < |t|
        ensures Rank(t[i]) < Rank(last)
      {
        assert t[i] in init;
        var k :| 0 <= k < |init| && init[k] == t[i];
        assert options[k] == t[i];
      }
      AppendInOrder(t, tail);
    }
  }

  /** Appending a tail ranked after every element keeps the order. */
  lemma AppendInOrder(t: seq<Reranker>, tail: seq<Reranker>)
    requires InOptionOrder(t) && |tail| <= 1
    requires forall i, j :: 0 <= i < |t| && 0 <= j < |tail| ==> Rank(t[i]) < Rank(tail[j])
    ensures InOptionOrder(t + tail)
  {
    var s := t + tail;
    forall i, j | 0 <= i < j < |s| ensures Rank(s[i]) < Rank(s[j]) {
      if j < |t| {
        assert s[i] == t[i] && s[j] == t[j];
      } else {
        assert s[i] == t[i] && s[j] == tail[j - |t|];
      }
    }
  }

  /**
   * The compare-mode selection is a subsequence of the option list, in
   * its order, holding exactly the ticked rerankers.
   */
  lemma CompareSelection(ticked: Reranker -> bool)
    ensures InOptionOrder(Ticked(RerankerOptions, ticked))
    ensures forall r :: r in Ticked(RerankerOptions, ticked) <==> ticked(r)
  {
    TickedKeepsOrder(RerankerOptions, ticked);
    forall r ensures r in RerankerOptions {
      assert RerankerOptions[Rank(r)] == r;
    }
  }

  /** `selected_rerankers`: the select box in single mode, the ticked boxes otherwise. */
  function Selection(mode: Mode, chosen: Reranker, ticked: Reranker -> bool): (s: seq<Reranker>)
    ensures mode == SingleReranker ==> s == [chosen]
    ensures mode == CompareRerankers ==> InOptionOrder(s) && forall r :: r in s <==> ticked(r)
  {
    if mode == SingleReranker then [chosen]
    else
      CompareSelection(ticked);
      Ticked(RerankerOptions, ticked)
  }

  /** The compare-mode checkbox loop that appends each ticked reranker. */
  method SelectRerankers(ticked: Reranker -> bool) returns (selected: seq<Reranker>)
    ensures selected == Selection(CompareRerankers, CrossEncoder, ticked)
  {
    selected := [];
    for i := 0 to |RerankerOptions|
      invariant selected == Ticked(RerankerOptions[..i], ticked)
    {
      assert RerankerOptions[..i + 1][..i] == RerankerOptions[..i];
      if ticked(RerankerOptions[i]) {
        selected := selected + [RerankerOptions[i]];
      }
    }
    assert RerankerOptions[..|RerankerOptions|] == RerankerOptions;
  }

  /** The centre argument the compare loops pass to `run_search`. */
  function CentreFor(reranker: Reranker, centre: Option<string>): Option<string>
  {
    if reranker == NodeDistance then centre else None
  }

  /** The requests of one compare loop: one per selected reranker, in order. */
  function EachReranker(groupId: string, query: string, scope: Scope, selected: seq<Reranker>,
                        limit: int, centre: Option<string>): seq<SearchCall>
  {
    if selected == [] then []
    else
      var last := selected[|selected| - 1];
      EachReranker(groupId, query, scope, selected[..|selected| - 1], limit, centre)
        + [SearchRequest(groupId, query, scope, last, limit, CentreFor(last, centre))]
  }

  /** Element k of a compare loop is the request for the k-th selected reranker. */
  lemma {:induction false} EachRerankerAt(groupId: string, query: string, scope: Scope,
                                          selected: seq<Reranker>, limit: int, centre: Option<string>)
    ensures |EachReranker(groupId, query, scope, selected, limit, centre)| == |selected|
    ensures forall k :: 0 <= k < |selected| ==>
              EachReranker(groupId, query, scope, selected, limit, centre)[k]
                == SearchRequest(groupId, query, scope, selected[k], limit, CentreFor(selected[k], centre))
  {
    if selected != [] {
      var init := selected[..|selected| - 1];
      EachRerankerAt(groupId, query, scope, init, limit, centre);
      forall k | 0 <= k < |init| ensures init[k] == selected[k] { }
    }
  }

  /** The scopes a scope choice issues, in order. */
  function Scopes(choice: ScopeChoice): (ss: seq<Scope>)
    ensures choice == BothScopes ==> ss == [Nodes, Edges]
    ensures choice == NodesOnly ==> ss == [Nodes]
    ensures choice == EdgesOnly ==> ss == [Edges]
  {
    match choice
    case NodesOnly => [Nodes]
    case EdgesOnly => [Edges]
    case BothScopes => [Nodes, Edges]
  }

  /**
   * The call plan: the ordered requests the main block sends once the
   * guards have passed and the centre (if any) is known.
   */
  function Plan(mode: Mode, choice: ScopeChoice, selected: seq<Reranker>, groupId: string,
                query: string, limit: int, centre: Option<string>): seq<SearchCall>
    requires selected != []
  {
    match mode
    case SingleReranker =>
      // single mode passes the centre whatever the reranker
      if choice == BothScopes then
        [SearchRequest(groupId, query, Nodes, selected[0], limit, centre),
         SearchRequest(groupId, query, Edges, selected[0], limit, centre)]
      else
        [SearchRequest(groupId, query, Scopes(choice)[0], selected[0], limit, centre)]
    case CompareRerankers =>
      if choice == BothScopes then
        EachReranker(groupId, query, Nodes, selected, limit, centre)
          + EachReranker(groupId, query, Edges, selected, limit, centre)
      else
        EachReranker(groupId, query, Scopes(choice)[0], selected, limit, centre)
  }

  /**
   * Compare mode with scope both and n rerankers: 2n requests, first every
   * nodes request in selection order, then every edges request; the centre
   * goes only to node_distance.
   */
  lemma CompareBothPlan(selected: seq<Reranker>, groupId: string, query: string, limit: int,
                        centre: Option<string>)
    requires selected != []
    ensures var p := Plan(CompareRerankers, BothScopes, selected, groupId, query, limit, centre);
      var n := |selected|;
      |p| == 2 * n &&
      (forall k :: 0 <= k < n ==>
         p[k] == SearchRequest(groupId, query, Nodes, selected[k], limit, CentreFor(selected[k], centre))) &&
      (forall k :: 0 <= k < n ==>
         p[n + k] == SearchRequest(groupId, query, Edges, selected[k], limit, CentreFor(selected[k], centre)))
  {
    EachRerankerAt(groupId, query, Nodes, selected, limit, centre);
    EachRerankerAt(groupId, query, Edges, selected, limit, centre);
  }

  /** Compare mode with one scope: n requests on that scope, in selection order. */
  lemma CompareOneScopePlan(choice: ScopeChoice, selected: seq<Reranker>, groupId: string,
                            query: string, limit: int, centre: Option<string>)
    requires selected != [] && choice != BothScopes
    ensures var p := Plan(CompareRerankers, choice, selected, groupId, query, limit, centre);
      |p| == |selected| &&
      forall k :: 0 <= k < |selected| ==>
        p[k] == SearchRequest(groupId, query, Scopes(choice)[0], selected[k], limit, CentreFor(selected[k], centre))
  {
    EachRerankerAt(groupId, query, Scopes(choice)[0], selected, limit, centre);
  }

  /**
   * Single mode: one request per scope implied by the choice (nodes before
   * edges), all with the first selected reranker.
   */
  lemma SingleModePlan(choice: ScopeChoice, selected: seq<Reranker>, groupId: string,
                       query: string, limit: int, centre: Option<string>)
    requires selected != []
    ensures var p := Plan(SingleReranker, choice, selected, groupId, query, limit, centre);
      |p| == |Scopes(choice)| &&
      forall k :: 0 <= k < |p| ==>
        p[k] == SearchRequest(groupId, query, Scopes(choice)[k], selected[0], limit, centre)
  {
  }

  /**
   * With one reranker selected, both modes send the same requests: the
   * single mode's unconditional centre argument is ignored unless the
   * reranker is node_distance.
   */
  lemma SingleAndCompareAgree(r: Reranker, choice: ScopeChoice, groupId: string,
                              query: string, limit: int, centre: Option<string>)
    ensures Plan(SingleReranker, choice, [r], groupId, query, limit, centre)
         == Plan(CompareRerankers, choice, [r], groupId, query, limit, centre)
  {
    assert [r][..0] == [];
    forall scope: Scope
      ensures EachReranker(groupId, query, scope, [r], limit, centre)
           == [SearchRequest(groupId, query, scope, r, limit, centre)]
    {
      if r != NodeDistance {
        CentreIgnoredUnlessNodeDistance(groupId, query, scope, r, limit, centre, None);
      }
    }
  }

  /**
   * Every planned request keeps the group id, query and limit, and none is
   * node_distance without a non-empty centre; a centre, when attached, is
   * exactly the one found.
   */
  lemma PlanSafe(mode: Mode, choice: ScopeChoice, selected: seq<Reranker>, groupId: string,
                 query: string, limit: int, centre: Option<string>)
    requires selected != []
    ensures forall c :: c in Plan(mode, choice, selected, groupId, query, limit, centre) ==>
              c.groupId == groupId && c.query == query && c.limit == limit && WellFormed(c) &&
              (c.centerNodeUuid.Some? ==> c.centerNodeUuid == centre)
  {
    var p := Plan(mode, choice, selected, groupId, query, limit, centre);
    EachRerankerAt(groupId, query, Nodes, selected, limit, centre);
    EachRerankerAt(groupId, query, Edges, selected, limit, centre);
    forall c | c in p
      ensures c.groupId == groupId && c.query == query && c.limit == limit && WellFormed(c) &&
              (c.centerNodeUuid.Some? ==> c.centerNodeUuid == centre)
    {
      var k :| 0 <= k < |p| && p[k] == c;
    }
  }

  /**
   * The fallback: with no usable centre nothing is sent as node_distance,
   * and each node_distance selection is sent as rrf instead.
   */
  lemma PlanFallsBackToRrf(mode: Mode, choice: ScopeChoice, selected: seq<Reranker>, groupId: string,
                           query: string, limit: int, centre: Option<string>)
    requires selected != [] && !Truthy(centre)
    ensures forall c :: c in Plan(mode, choice, selected, groupId, query, limit, centre) ==>
              c.reranker != NodeDistance && c.centerNodeUuid == None
  {
    PlanSafe(mode, choice, selected, groupId, query, limit, centre);
  }

  /** Everything the main block reads when the script runs. */
  datatype RunInputs = RunInputs(
    runPressed: bool,
    groupId: string,
    query: string,
    mode: Mode,
    selected: seq<Reranker>,
    limit: int,
    scope: ScopeChoice,
    useCentroid: bool,
    centroidQuery: string)

  /** What one run does: a message and no request, or the requests it sends. */
  datatype RunOutcome =
    | Idle                  // run button not pressed
    | MissingGroupId        // warning: enter a group id
    | NoRerankerSelected    // warning: select at least one reranker
    | CentroidRequired      // error: node_distance needs "Use Centroid Node"
    | Ran(lookup: Option<SearchCall>, searches: seq<SearchCall>)

  /** The guard of the main block. */
  predicate MayRun(inp: RunInputs)
  {
    inp.runPressed && inp.groupId != "" && inp.selected != []
  }

  /** The centroid is looked up only when the option is on and node_distance selected. */
  predicate NeedsCentroid(inp: RunInputs)
  {
    inp.useCentroid && NodeDistance in inp.selected
  }

  /** Reference definition of one run of the main block. */
  function RunSpec(inp: RunInputs, service: Service): RunOutcome
  {
    if MayRun(inp) then
      if NodeDistance in inp.selected && !inp.useCentroid then CentroidRequired
      else
        var lookup := if NeedsCentroid(inp) then Some(CentroidRequest(inp.groupId, inp.centroidQuery)) else None;
        var centre := if lookup.Some? then CentroidOf(service(lookup.value)).uuid else None;
        Ran(lookup, Plan(inp.mode, inp.scope, inp.selected, inp.groupId, inp.query, inp.limit, centre))
    else if inp.groupId == "" && inp.runPressed then MissingGroupId
    else if inp.selected == [] && inp.runPressed then NoRerankerSelected
    else Idle
  }

  /** All requests a run sends, in order: the centroid lookup first, if any. */
  function Issued(out: RunOutcome): seq<SearchCall>
  {
    if out.Ran? then (if out.lookup.Some? then [out.lookup.value] else []) + out.searches else []
  }

  /**
   * The guards: searches run exactly when the button was pressed, a group id
   * is given, a reranker is selected and node_distance is not selected
   * without the centroid option; a rejected run sends nothing.
   */
  lemma RunGuards(inp: RunInputs, service: Service)
    ensures RunSpec(inp, service).Ran? <==>
              MayRun(inp) && (NodeDistance in inp.selected ==> inp.useCentroid)
    ensures RunSpec(inp, service) == CentroidRequired <==>
              MayRun(inp) && NodeDistance in inp.selected && !inp.useCentroid
    ensures !RunSpec(inp, service).Ran? ==> Issued(RunSpec(inp, service)) == []
  {
  }

  /** Which message a run that does not pass the main guard shows. */
  lemma RunMessages(inp: RunInputs, service: Service)
    ensures RunSpec(inp, service) == MissingGroupId <==> inp.runPressed && inp.groupId == ""
    ensures RunSpec(inp, service) == NoRerankerSelected <==>
              inp.runPressed && inp.groupId != "" && inp.selected == []
    ensures RunSpec(inp, service) == Idle <==> !inp.runPressed
  {
  }

  /**
   * The centroid is looked up at most once, with the fixed request, exactly
   * when the option is on and node_distance is selected.
   */
  lemma CentroidLookedUpOnce(inp: RunInputs, service: Service)
    requires RunSpec(inp, service).Ran?
    ensures var out := RunSpec(inp, service);
      (out.lookup.Some? <==> NeedsCentroid(inp)) &&
      (out.lookup.Some? ==> out.lookup.value == CentroidRequest(inp.groupId, inp.centroidQuery))
  {
  }

  /** No request of a run is ever node_distance without a non-empty centre. */
  lemma RunNeverNodeDistanceWithoutCentre(inp: RunInputs, service: Service)
    ensures forall c :: c in Issued(RunSpec(inp, service)) ==> WellFormed(c)
  {
    var out := RunSpec(inp, service);
    if out.Ran? {
      var centre := if out.lookup.Some? then CentroidOf(service(out.lookup.value)).uuid else None;
      PlanSafe(inp.mode, inp.scope, inp.selected, inp.groupId, inp.query, inp.limit, centre);
      forall c | c in Issued(out) ensures WellFormed(c) {
        if out.lookup.Some? && c == out.lookup.value {
        } else {
          assert c in out.searches;
        }
      }
    }
  }

  /**
   * When the lookup finds no node, every search of the run is sent without
   * a centre and none as node_distance.
   */
  lemma RunFallsBackWhenCentroidMissing(inp: RunInputs, service: Service)
    requires RunSpec(inp, service).Ran? && NeedsCentroid(inp)
    requires service(CentroidRequest(inp.groupId, inp.centroidQuery)).nodes == []
    ensures forall c :: c in RunSpec(inp, service).searches ==>
              c.reranker != NodeDistance && c.centerNodeUuid == None
  {
    PlanFallsBackToRrf(inp.mode, inp.scope, inp.selected, inp.groupId, inp.query, inp.limit, None);
  }

  /**
   * Example: node_distance alone, centroid option on, and a centroid search
   * that finds nothing: two requests in all, the lookup and then the
   * search sent as rrf without a centre.
   */
  lemma MissingCentroidExample(service: Service)
    requires service(CentroidRequest("g1", "pumps")).nodes == []
    ensures Issued(RunSpec(RunInputs(true, "g1", "best widgets", SingleReranker, [NodeDistance], 3,
                                     NodesOnly, true, "pumps"), service))
         == [SearchCall("g1", "pumps", Nodes, 1, Rrf, None),
             SearchCall("g1", "best widgets", Nodes, 3, Rrf, None)]
  {
  }

  /**
   * Each selection the sidebar can produce feeds the guards as expected:
   * single mode always has a reranker; compare mode has none exactly when no
   * box is ticked; node_distance without the centroid option is refused
   * exactly when it was chosen (single) or ticked (compare).
   */
  lemma SelectionFeedsGuards(inp: RunInputs, chosen: Reranker, ticked: Reranker -> bool, service: Service)
    requires inp.selected == Selection(inp.mode, chosen, ticked)
    ensures inp.mode == SingleReranker ==> RunSpec(inp, service) != NoRerankerSelected
    ensures inp.mode == CompareRerankers ==>
              (RunSpec(inp, service) == NoRerankerSelected <==>
                 inp.runPressed && inp.groupId != "" && forall r :: !ticked(r))
    ensures RunSpec(inp, service) == CentroidRequired <==>
              inp.runPressed && inp.groupId != "" && !inp.useCentroid &&
              (if inp.mode == SingleReranker then chosen == NodeDistance else ticked(NodeDistance))
  {
    RunGuards(inp, service);
    RunMessages(inp, service);
    if inp.mode == CompareRerankers {
      if inp.selected == [] {
        forall r ensures !ticked(r) {
          assert r !in inp.selected;
        }
      } else {
        assert ticked(inp.selected[0]);
      }
    }
  }

  /** One compare loop, as written in the main block. */
  method SearchEach(service: GraphService, groupId: string, query: string, scope: Scope,
                    selected: seq<Reranker>, limit: int, centre: Option<string>)
    returns (calls: seq<SearchCall>)
    modifies service
    ensures calls == EachReranker(groupId, query, scope, selected, limit, centre)
    ensures service.sent == old(service.sent) + calls
  {
    calls := [];
    for i := 0 to |selected|
      invariant calls == EachReranker(groupId, query, scope, selected[..i], limit, centre)
      invariant service.sent == old(service.sent) + calls
    {
      var reranker := selected[i];
      assert selected[..i + 1][..i] == selected[..i];
      var params, results := RunSearch(service, groupId, query, scope, reranker, limit,
                                       if reranker == NodeDistance then centre else None);
      calls := calls + [params];
    }
    assert selected[..|selected|] == selected;
  }

  /** The searches of the chosen mode and scope, in the order they are sent. */
  method SendPlan(service: GraphService, mode: Mode, choice: ScopeChoice, selected: seq<Reranker>,
                  groupId: string, query: string, limit: int, centre: Option<string>)
    returns (searches: seq<SearchCall>)
    requires selected != []
    modifies service
    ensures searches == Plan(mode, choice, selected, groupId, query, limit, centre)
    ensures service.sent == old(service.sent) + searches
  {
    if mode == SingleReranker {
      if choice == BothScopes {
        var nodeParams, nodeResults := RunSearch(service, groupId, query, Nodes, selected[0], limit, centre);
        var edgeParams, edgeResults := RunSearch(service, groupId, query, Edges, selected[0], limit, centre);
        searches := [nodeParams, edgeParams];
      } else {
        var scope := if choice == NodesOnly then Nodes else Edges;
        var params, results := RunSearch(service, groupId, query, scope, selected[0], limit, centre);
        searches := [params];
      }
    } else {
      if choice == BothScopes {
        var nodeCalls := SearchEach(service, groupId, query, Nodes, selected, limit, centre);
        var edgeCalls := SearchEach(service, groupId, query, Edges, selected, limit, centre);
        searches := nodeCalls + edgeCalls;
      } else {
        var scope := if choice == NodesOnly then Nodes else Edges;
        searches := SearchEach(service, groupId, query, scope, selected, limit, centre);
      }
    }
  }

  /**
   * The main block: the guards, the centroid lookup when needed, and the
   * searches of the chosen mode and scope. The service receives exactly the
   * requests `RunSpec` issues, in that order, and nothing else.
   */
  method RunQueries(inp: RunInputs, service: GraphService) returns (out: RunOutcome)
    modifies service
    ensures out == RunSpec(inp, service.answer)
    ensures service.sent == old(service.sent) + Issued(out)
  {
    if !(inp.runPressed && inp.groupId != "" && |inp.selected| > 0) {
      if inp.groupId == "" && inp.runPressed {
        return MissingGroupId;
      } else if |inp.selected| == 0 && inp.runPressed {
        return NoRerankerSelected;
      }
      return Idle;
    }
    if NodeDistance in inp.selected && !inp.useCentroid {
      return CentroidRequired;
    }
    var centre: Option<string> := None;
    var lookup: Option<SearchCall> := None;
    if inp.useCentroid && NodeDistance in inp.selected {
      var summary;
      centre, summary := GetCentroidNode(service, inp.groupId, inp.centroidQuery);
      lookup := Some(CentroidRequest(inp.groupId, inp.centroidQuery));
    }
    ghost var looked := if lookup.Some? then [lookup.value] else [];
    assert service.sent == old(service.sent) + looked;
    var searches := SendPlan(service, inp.mode, inp.scope, inp.selected, inp.groupId, inp.query,
                             inp.limit, centre);
    out := Ran(lookup, searches);
    assert Issued(out) == looked + searches;
    assert old(service.sent) + looked + searches == old(service.sent) + (looked + searches);
  }
}
