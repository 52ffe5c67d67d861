/** `replay_graph`: the fold of one graph's events into its projection, and what the
    idempotency keys of graph events reveal. */
module GraphLog {
  import opened Base
  import opened Journal

  /** The status strings of graphs and of nodes. */
  datatype Status = Absent | Created | Pending | Running | Completed | Failed

  datatype NodeState = NodeState(
    subject: string, blockedBy: seq<string>, kind: string, status: Status,
    owner: Option<string>, lease: Option<string>,
    pending: Option<Digest>, pendingEvidence: seq<string>, receiptActor: Option<string>,
    receipt: Option<Digest>, error: Option<string>)

  /** `order` is the insertion order of the dictionary `nodes`. */
  datatype GraphView = GraphView(status: Status, nodes: map<string, NodeState>, order: seq<string>)

  const NO_GRAPH := GraphView(Absent, map[], [])

  function FreshNode(n: GraphNode): NodeState {
    NodeState(n.subject, n.blockedBy, n.kind, Pending, None, None, None, [], None, None, None)
  }

  /** The dictionary built from the node list: a repeated id keeps its place, its last value wins. */
  function NodesOf(raw: seq<GraphNode>): map<string, NodeState> {
    if raw == [] then map[]
    else NodesOf(raw[..|raw| - 1])[raw[|raw| - 1].id := FreshNode(raw[|raw| - 1])]
  }

  function OrderOf(raw: seq<GraphNode>): seq<string> {
    if raw == [] then []
    else
      var earlier := OrderOf(raw[..|raw| - 1]);
      var id := raw[|raw| - 1].id;
      if id in earlier then earlier else earlier + [id]
  }

  /** One event of the graph, with every check of the source. */
  function GraphApply(g: GraphView, f: GraphFact): Result<GraphView> {
    match f
    case GraphCreated(_, nodes) =>
      if g.status != Absent then Failure(GraphReplayRejected)
      else Success(GraphView(Created, NodesOf(nodes), OrderOf(nodes)))
    case GraphStarted(_) =>
      if g.status != Created then Failure(GraphReplayRejected) else Success(g.(status := Running))
    case NodeStarted(_, n, owner, lease) =>
      if g.status != Running || n !in g.nodes || g.nodes[n].status != Pending then Failure(GraphReplayRejected)
      else Success(g.(nodes := g.nodes[n := g.nodes[n].(status := Running, owner := Some(owner),
        lease := Some(lease))]))
    case NodeReceipt(_, n, digest, evidence, actor) =>
      if n !in g.nodes || g.nodes[n].status != Running
         || (g.nodes[n].pending.Some? && g.nodes[n].pending.value != digest) then Failure(GraphReplayRejected)
      else Success(g.(nodes := g.nodes[n := g.nodes[n].(
             pending := Some(digest), pendingEvidence := evidence, receiptActor := Some(actor))]))
    case NodeCompleted(_, n, digest, _) =>
      if n !in g.nodes || g.nodes[n].status != Running || g.nodes[n].pending != Some(digest)
        then Failure(GraphReplayRejected)
      else Success(g.(nodes := g.nodes[n := g.nodes[n].(status := Completed, receipt := Some(digest))]))
    case NodeFailed(_, n, error) =>
      if n !in g.nodes || g.nodes[n].status != Running then Failure(GraphReplayRejected)
      else Success(g.(nodes := g.nodes[n := g.nodes[n].(status := Failed, error := Some(error))]))
    case GraphCompleted(_) =>
      if g.status != Running || exists n ::
        n in g.nodes && g.nodes[n].status != Completed then Failure(GraphReplayRejected)
      else Success(g.(status := Completed))
    case GraphFailed(_, _) =>
      if g.status != Created && g.status != Running then Failure(GraphReplayRejected)
      else Success(g.(status := Failed))
  }

  predicate Concerns(b: Body, gid: string) { b.Graph? && b.graphFact.graph == gid }

  function GraphStep(gid: string, g: GraphView, b: Body): Result<GraphView> {
    if Concerns(b, gid) then GraphApply(g, b.graphFact) else Success(g)
  }

  function GraphFold(j: seq<Event>, gid: string): Result<GraphView> {
    if j == [] then Success(NO_GRAPH)
    else
      var g :- GraphFold(j[..|j| - 1], gid);
      GraphStep(gid, g, j[|j| - 1].body)
  }

  lemma GraphFoldAppend(j: seq<Event>, gid: string, e: Event)
    ensures GraphFold(j + [e], gid) ==
      if GraphFold(j, gid).Failure? then GraphFold(j, gid) else GraphStep(gid, GraphFold(j, gid).value, e.body)
  {
    assert (j + [e])[..|j|] == j;
  }

  lemma {:induction false} GraphFoldPrefix(j: seq<Event>, gid: string, k: nat)
    requires k <= |j| && GraphFold(j, gid).Success?
    ensures GraphFold(j[..k], gid).Success?
    decreases |j|
  {
    if k == |j| {
      assert j[..k] == j;
    } else {
      var n := |j| - 1;
      GraphFoldPrefix(j[..n], gid, k);
      assert j[..n][..k] == j[..k];
    }
  }

  /** `replay_graph`: a loop over the events, skipping those of other kinds and other graphs. */
  method ReplayGraph(j: seq<Event>, gid: string) returns (r: Result<GraphView>)
    ensures r.Success? <==> GraphFold(j, gid).Success?
    ensures r.Success? ==> r == GraphFold(j, gid)
    ensures r.Failure? ==> r.error == GraphReplayRejected
  {
    var g := NO_GRAPH;
    for n := 0 to |j|
      invariant GraphFold(j[..n], gid) == Success(g)
    {
      assert j[..n + 1] == j[..n] + [j[n]];
      GraphFoldAppend(j[..n], gid, j[n]);
      if j[n].body.Graph? && j[n].body.graphFact.graph == gid {
        var next := GraphApply(g, j[n].body.graphFact);
        if next.Failure? {
          if GraphFold(j, gid).Success? { GraphFoldPrefix(j, gid, n + 1); }
          return Failure(GraphReplayRejected);
        }
        g := next.value;
      }
    }
    assert j[..|j|] == j;
    r := Success(g);
  }

  function GraphKeyOf(f: GraphFact): Key {
    OfGraph(match f
      case GraphCreated(g, _) => GraphCreateKey(g)
      case GraphStarted(g) => GraphStartKey(g)
      case NodeStarted(g, n, _, lease) => NodeStartKey(g, n, lease)
      case NodeReceipt(g, n, digest, _, _) => NodeReceiptKey(g, n, digest)
      case NodeCompleted(g, n, digest, _) => NodeCompleteKey(g, n, digest)
      case NodeFailed(g, n, error) => NodeFailKey(g, n, error)
      case GraphCompleted(g) => GraphCompleteKey(g)
      case GraphFailed(g, reason) => GraphFailKey(g, reason))
  }

  /** Graph events, and they alone, are stored under graph keys that say what they do. */
  ghost predicate GraphKeyFits(key: Key, body: Body) {
    && (body.Graph? ==> key == GraphKeyOf(body.graphFact))
    && (key.OfGraph? ==> body.Graph?)
  }

  ghost predicate GraphKeyed(j: seq<Event>) {
    forall i :: 0 <= i < |j| ==> GraphKeyFits(j[i].key, j[i].body)
  }

  /** What a used key of the graph says about every later projection of it. */
  predicate GraphTraced(g: GraphView, key: GraphKey) {
    match key
    case GraphCreateKey(_) => g.status != Absent
    case GraphStartKey(_) => g.status != Absent && g.status != Created
    case NodeStartKey(_, n, _) => n in g.nodes && g.nodes[n].status != Pending
    case NodeReceiptKey(_, n, digest) => n in g.nodes && g.nodes[n].pending == Some(digest)
    case NodeCompleteKey(_, n, digest) =>
      n in g.nodes && g.nodes[n].status == Completed && g.nodes[n].receipt == Some(digest)
    case NodeFailKey(_, n, _) => n in g.nodes && g.nodes[n].status == Failed
    case GraphCompleteKey(_) => g.status == Completed
    case GraphFailKey(_, _) => g.status == Failed
  }

  lemma {:induction false} AbsentIsEmpty(j: seq<Event>, gid: string)
    requires GraphFold(j, gid).Success?
    ensures GraphFold(j, gid).value.status == Absent ==> GraphFold(j, gid).value == NO_GRAPH
  {
    if j != [] { AbsentIsEmpty(j[..|j| - 1], gid); }
  }

  lemma GraphTraceStays(g: GraphView, key: GraphKey, f: GraphFact)
    requires g.status == Absent ==> g == NO_GRAPH
    requires GraphTraced(g, key) && GraphApply(g, f).Success?
    ensures GraphTraced(GraphApply(g, f).value, key)
  {
  }

  lemma {:induction false} UsedGraphKeyTraced(j: seq<Event>, gid: string, i: nat)
    requires GraphKeyed(j) && GraphFold(j, gid).Success?
    requires i < |j| && j[i].key.OfGraph? && j[i].key.graphKey.graph == gid
    ensures GraphTraced(GraphFold(j, gid).value, j[i].key.graphKey)
    decreases |j|
  {
    var n := |j| - 1;
    var g := GraphFold(j[..n], gid).value;
    if i < n {
      UsedGraphKeyTraced(j[..n], gid, i);
      AbsentIsEmpty(j[..n], gid);
      if Concerns(j[n].body, gid) { GraphTraceStays(g, j[i].key.graphKey, j[n].body.graphFact); }
    } else {
      assert GraphKeyFits(j[n].key, j[n].body);
    }
  }

  /** A graph key whose trace the projection lacks is unused. */
  lemma UnusedGraphKey(j: seq<Event>, gid: string, key: GraphKey)
    requires GraphKeyed(j) && GraphFold(j, gid).Success? && key.graph == gid
    requires !GraphTraced(GraphFold(j, gid).value, key)
    ensures Unused(j, OfGraph(key))
  {
    forall i | 0 <= i < |j| ensures j[i].key != OfGraph(key) {
      if j[i].key == OfGraph(key) { UsedGraphKeyTraced(j, gid, i); }
    }
  }
}
