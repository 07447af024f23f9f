/** Deriving the lineage graph from the stored records (internal/lineage/derive.go), and
    what its impact answers say about them. What a source's type or a workflow node reads
    off its configuration is given with the record. */
module LineageDerive {
  import Sequences
  import G = LineageGraph
  import D = LineageDownstream
  import opened CompositeSinks

  type Edge = G.Edge

  datatype Source = Source(id: string, name: string, typ: string, assets: seq<Asset>)

  /** A data asset a workflow's node touches: written when `out`. */
  datatype Use = Use(asset: Asset, relation: string, out: bool)

  datatype Node = Node(id: string, typ: string, refID: string, uses: seq<Use>)

  datatype Workflow = Workflow(id: string, name: string, nodes: seq<Node>)

  /** `trainedOn` is the dataset of the retraining policy, empty without one. */
  datatype Model = Model(vhost: string, name: string, trainedOn: string)

  datatype Inputs = Inputs(workflows: seq<Workflow>, sources: seq<Source>, sinks: seq<Sink>, models: seq<Model>)

  const READS := "reads"
  const WRITES := "writes"
  const TRAINS := "trains"

  function TrimSlash(s: string): string {
    if s != [] && s[0] == '/' then s[1..] else s
  }

  /** asset.id: never empty. */
  function AssetID(a: Asset): (id: string)
    ensures id != ""
  {
    a.kind + ":" + a.system + "://" + a.locator + if a.obj != "" then "/" + TrimSlash(a.obj) else ""
  }

  function WorkflowNodeID(id: string): (r: string)
    ensures r != ""
  {
    G.KIND_WORKFLOW + ":" + id
  }

  function OrDefault(vhost: string): string { if vhost == "" then "default" else vhost }

  function DatasetAsset(vhost: string, name: string): Asset { Asset("dataset", "ml", OrDefault(vhost), name, "") }

  function ModelAsset(vhost: string, name: string): Asset { Asset("model", "ml", OrDefault(vhost), name, "") }

  function Connector(typ: string, recordKind: string, id: string, name: string): Asset {
    Asset("connector", typ, recordKind + "/" + id, "", name)
  }

  // --------------------------------------------------------------- the edges promised

  ghost predicate SourceUse(s: Source, a: Asset) {
    if s.assets == [] then a == Connector(s.typ, "source", s.id, s.name) else a in s.assets
  }

  /** A plain sink with nothing to show is a connector; a composite without members is nothing. */
  ghost predicate SinkUse(sinks: Sinks, s: Sink, a: Asset) {
    Writes(sinks, s.id, a) ||
    (!IsComposite(s) && s.assets == [] && a == Connector(s.typ, "sink", s.id, s.name))
  }

  ghost predicate NodeEdge(sources: map<string, Source>, sinks: Sinks, wf: Workflow, n: Node, e: Edge) {
    if n.typ == "source" then
      n.refID in sources && exists a :: SourceUse(sources[n.refID], a) && e == ReadEdge(wf, n, READS, a)
    else if n.typ == "sink" then
      n.refID in sinks && exists a :: SinkUse(sinks, sinks[n.refID], a) && e == WriteEdge(wf, n, WRITES, a)
    else
      exists u :: u in n.uses && e == UseEdge(wf, n, u)
  }

  function ReadEdge(wf: Workflow, n: Node, relation: string, a: Asset): Edge {
    G.Edge(AssetID(a), WorkflowNodeID(wf.id), relation, wf.id, n.id)
  }

  function WriteEdge(wf: Workflow, n: Node, relation: string, a: Asset): Edge {
    G.Edge(WorkflowNodeID(wf.id), AssetID(a), relation, wf.id, n.id)
  }

  function UseEdge(wf: Workflow, n: Node, u: Use): Edge {
    if u.out then WriteEdge(wf, n, u.relation, u.asset) else ReadEdge(wf, n, u.relation, u.asset)
  }

  ghost predicate WorkflowEdge(sources: map<string, Source>, sinks: Sinks, wf: Workflow, k: nat, e: Edge) {
    exists i :: 0 <= i < k && i < |wf.nodes| && NodeEdge(sources, sinks, wf, wf.nodes[i], e)
  }

  ghost predicate ModelEdge(m: Model, e: Edge) {
    m.trainedOn != "" &&
    e == G.Edge(AssetID(DatasetAsset(m.vhost, m.trainedOn)), AssetID(ModelAsset(m.vhost, m.name)), TRAINS, "", "")
  }

  /** The edges of the first w workflows and the first m models. */
  ghost predicate InputEdge(ins: Inputs, sources: map<string, Source>, sinks: Sinks, w: nat, m: nat, e: Edge) {
    (exists i :: 0 <= i < w && i < |ins.workflows| &&
                 WorkflowEdge(sources, sinks, ins.workflows[i], |ins.workflows[i].nodes|, e)) ||
    (exists i :: 0 <= i < m && i < |ins.models| && ModelEdge(ins.models[i], e))
  }

  /** Every end of an edge is a node, every node is kept by its id, and no id is empty. */
  ghost predicate Sound(nodes: map<string, G.Node>, edges: set<Edge>) {
    (forall e :: e in edges ==> e.src in nodes && e.dst in nodes) &&
    (forall k :: k in nodes ==> nodes[k].id == k && k != "")
  }

  ghost predicate IsEnd(edges: set<Edge>, id: string) {
    exists e :: e in edges && (e.src == id || e.dst == id)
  }

  /** Nothing is lost, and what is new is an end of an edge or one of these. */
  ghost predicate Extends(before: map<string, G.Node>, after: map<string, G.Node>, edges: set<Edge>,
                          named: set<string>) {
    (forall k :: k in before ==> k in after && after[k].kind == before[k].kind) &&
    (forall k :: k in after && k !in before ==> k in named || IsEnd(edges, k))
  }

  lemma ExtendsMore(a: map<string, G.Node>, b: map<string, G.Node>, c: map<string, G.Node>,
                    es: set<Edge>, fs: set<Edge>, named: set<string>, named': set<string>)
    requires Extends(a, b, es, named) && Extends(b, c, fs, named') && es <= fs && named <= named'
    ensures Extends(a, c, fs, named')
  {
  }

  lemma ExtendsSelf(a: map<string, G.Node>, es: set<Edge>, named: set<string>)
    ensures Extends(a, a, es, named)
  {
  }

  // ---------------------------------------------------------------------- the builder

  /** builder: nodes and edges, each once. */
  class Builder {
    var nodes: map<string, G.Node>
    var edges: set<Edge>
    const sources: map<string, Source>
    const sinks: Sinks

    constructor (sources: map<string, Source>, sinks: Sinks)
      ensures nodes == map[] && edges == {} && this.sources == sources && this.sinks == sinks
    {
      nodes, edges := map[], {};
      this.sources, this.sinks := sources, sinks;
    }

    /** addAsset: the first of an id makes its node. */
    method AddAsset(a: Asset) returns (id: string)
      requires Sound(nodes, edges)
      modifies this`nodes
      ensures Sound(nodes, edges)
      ensures id == AssetID(a) && id in nodes && nodes.Keys == old(nodes).Keys + {id}
      ensures forall k :: k in old(nodes) ==> nodes[k] == old(nodes)[k]
    {
      id := AssetID(a);
      if id !in nodes {
        nodes := nodes[id := G.Node(id, a.kind, a.shownAs)];
      }
    }

    /** link: each asset, and an edge to or from it; the open end of e is the empty one. */
    method Link(assets: seq<Asset>, e: Edge)
      requires Sound(nodes, edges)
      requires (e.src == "" && e.dst in nodes) || (e.src != "" && e.src in nodes)
      modifies this`nodes, this`edges
      ensures Sound(nodes, edges) && Extends(old(nodes), nodes, edges, {})
      ensures edges == old(edges) + set a | a in assets :: Attached(e, a)
    {
      ExtendsSelf(nodes, edges, {});
      hide Sound, AssetID, Extends;
      for n := 0 to |assets|
        invariant Sound(nodes, edges) && Extends(old(nodes), nodes, edges, {})
        invariant (e.src == "" && e.dst in nodes) || (e.src != "" && e.src in nodes)
        invariant edges == old(edges) + set a | a in assets[..n] :: Attached(e, a)
      {
        assert assets[..n + 1] == assets[..n] + [assets[n]];
        ghost var was := nodes;
        var id := AddAsset(assets[n]);
        var edge := e;
        if edge.src == "" {
          edge := edge.(src := id);
        } else {
          edge := edge.(dst := id);
        }
        assert edge == Attached(e, assets[n]);
        SoundWith(nodes, edges, edge);
        EndAdded(was, nodes, edges, edge, id);
        ExtendsMore(old(nodes), was, nodes, edges, edges + {edge}, {}, {});
        edges := edges + {edge};
      }
      assert assets[..|assets|] == assets;
    }

    /** sourceAssets of the builder */
    method SourceAssets(s: Source) returns (assets: seq<Asset>)
      ensures forall a :: a in assets <==> SourceUse(s, a)
    {
      assets := s.assets;
      if |assets| == 0 {
        assets := [Connector(s.typ, "source", s.id, s.name)];
      }
    }

    /** sinkAssets of the builder */
    method SinkAssets(s: Sink) returns (assets: seq<Asset>)
      requires Keyed(sinks) && s.id in sinks && sinks[s.id] == s
      ensures forall a :: a in assets <==> SinkUse(sinks, s, a)
    {
      ghost var found;
      assets, found := AssetsOf(sinks, s);
      if !IsComposite(s) {
        forall a ensures Writes(sinks, s.id, a) <==> a in s.assets { PlainWritesOwn(sinks, s, a); }
        assert |assets| > 0 ==> assets[0] in s.assets;
        assert |s.assets| > 0 ==> s.assets[0] in assets;
      }
      if |assets| == 0 && s.typ != "failover" && s.typ != "txgroup" {
        assets := [Connector(s.typ, "sink", s.id, s.name)];
      }
    }

    /** The switch over one node's type in addWorkflow. */
    method AddNode(wf: Workflow, n: Node)
      requires Sound(nodes, edges) && Keyed(sinks) && WorkflowNodeID(wf.id) in nodes
      modifies this`nodes, this`edges
      ensures Sound(nodes, edges) && Extends(old(nodes), nodes, edges, {})
      ensures forall e :: e in edges <==> e in old(edges) || NodeEdge(sources, sinks, wf, n, e)
    {
      ExtendsSelf(nodes, edges, {});
      hide Writes, SourceUse, Sound, Extends;
      var wfID := WorkflowNodeID(wf.id);
      if n.typ == "source" {
        if n.refID in sources {
          var assets := SourceAssets(sources[n.refID]);
          Link(assets, G.Edge("", wfID, READS, wf.id, n.id));
          AttachedReads(wf, n, READS, assets);
        }
      } else if n.typ == "sink" {
        if n.refID in sinks {
          var assets := SinkAssets(sinks[n.refID]);
          Link(assets, G.Edge(wfID, "", WRITES, wf.id, n.id));
          AttachedWrites(wf, n, WRITES, assets);
        }
      } else {
        AddUses(wf, n);
      }
    }

    method AddUses(wf: Workflow, n: Node)
      requires Sound(nodes, edges) && WorkflowNodeID(wf.id) in nodes
      modifies this`nodes, this`edges
      ensures Sound(nodes, edges) && Extends(old(nodes), nodes, edges, {})
      ensures forall e :: e in edges <==> e in old(edges) || exists u :: u in n.uses && e == UseEdge(wf, n, u)
    {
      ExtendsSelf(nodes, edges, {});
      hide Sound, Extends;
      var wfID := WorkflowNodeID(wf.id);
      for k := 0 to |n.uses|
        invariant Sound(nodes, edges) && Extends(old(nodes), nodes, edges, {}) && wfID in nodes
        invariant edges == old(edges) + set u | u in n.uses[..k] :: UseEdge(wf, n, u)
      {
        var u := n.uses[k];
        assert n.uses[..k + 1] == n.uses[..k] + [u];
        var e := G.Edge("", wfID, u.relation, wf.id, n.id);
        if u.out {
          e := G.Edge(wfID, "", u.relation, wf.id, n.id);
        }
        ghost var was, es := nodes, edges;
        Link([u.asset], e);
        ExtendsMore(old(nodes), was, nodes, es, edges, {}, {});
        ExtendsHas(was, nodes, edges, {}, wfID);
        assert Attached(e, u.asset) == UseEdge(wf, n, u);
      }
      assert n.uses[..|n.uses|] == n.uses;
    }

    /** addWorkflow */
    method AddWorkflow(wf: Workflow)
      requires Sound(nodes, edges) && Keyed(sinks)
      modifies this`nodes, this`edges
      ensures Sound(nodes, edges) && WorkflowNodeID(wf.id) in nodes
      ensures nodes[WorkflowNodeID(wf.id)].kind == G.KIND_WORKFLOW
      ensures ExtendsWorkflow(old(nodes), nodes, edges, WorkflowNodeID(wf.id))
      ensures forall e :: e in edges <==> e in old(edges) || WorkflowEdge(sources, sinks, wf, |wf.nodes|, e)
    {
      hide NodeEdge;
      var wfID := WorkflowNodeID(wf.id);
      nodes := nodes[wfID := G.Node(wfID, G.KIND_WORKFLOW, if wf.name == "" then wf.id else wf.name)];
      assert Sound(nodes, edges);
      ghost var start := nodes;
      ExtendsSelf(nodes, edges, {});
      hide Sound, Extends;
      for k := 0 to |wf.nodes|
        invariant Sound(nodes, edges) && Extends(start, nodes, edges, {}) && wfID in nodes
        invariant forall e :: e in edges <==> e in old(edges) || WorkflowEdge(sources, sinks, wf, k, e)
      {
        ghost var was, es := nodes, edges;
        AddNode(wf, wf.nodes[k]);
        ExtendsMore(start, was, nodes, es, edges, {}, {});
        ExtendsHas(was, nodes, edges, {}, wfID);
        forall e ensures WorkflowEdge(sources, sinks, wf, k + 1, e) <==>
                         WorkflowEdge(sources, sinks, wf, k, e) || NodeEdge(sources, sinks, wf, wf.nodes[k], e) {
          OneMoreNode(sources, sinks, wf, k, e);
        }
      }
      ExtendsHas(start, nodes, edges, {}, wfID);
      WorkflowExtends(old(nodes), start, nodes, edges, wfID);
    }

    method AddModel(m: Model)
      requires Sound(nodes, edges)
      modifies this`nodes, this`edges
      ensures Sound(nodes, edges) && AssetID(ModelAsset(m.vhost, m.name)) in nodes
      ensures Extends(old(nodes), nodes, edges, {AssetID(ModelAsset(m.vhost, m.name))})
      ensures forall e :: e in edges <==> e in old(edges) || ModelEdge(m, e)
    {
      var mid := AddAsset(ModelAsset(m.vhost, m.name));
      if m.trainedOn != "" {
        var did := AddAsset(DatasetAsset(m.vhost, m.trainedOn));
        edges := edges + {G.Edge(did, mid, TRAINS, "", "")};
      }
    }
  }

  /** As Extends, but the workflow's own node is written over what had its id. */
  ghost predicate ExtendsWorkflow(before: map<string, G.Node>, after: map<string, G.Node>, edges: set<Edge>,
                                  wfID: string) {
    (forall k :: k in before && k != wfID ==> k in after && after[k].kind == before[k].kind) &&
    (forall k :: k in after && k !in before ==> k == wfID || IsEnd(edges, k))
  }

  lemma WorkflowExtends(before: map<string, G.Node>, start: map<string, G.Node>, after: map<string, G.Node>,
                        edges: set<Edge>, wfID: string)
    requires start.Keys == before.Keys + {wfID} && forall k :: k in before && k != wfID ==> start[k] == before[k]
    requires Extends(start, after, edges, {})
    ensures ExtendsWorkflow(before, after, edges, wfID)
  {
  }

  lemma ExtendsHas(before: map<string, G.Node>, after: map<string, G.Node>, edges: set<Edge>, named: set<string>,
                   k: string)
    requires Extends(before, after, edges, named) && k in before
    ensures k in after && after[k].kind == before[k].kind
  {
  }

  lemma EndAdded(before: map<string, G.Node>, after: map<string, G.Node>, edges: set<Edge>, e: Edge, id: string)
    requires after.Keys == before.Keys + {id} && (e.src == id || e.dst == id)
    requires forall k :: k in before ==> after[k] == before[k]
    ensures Extends(before, after, edges + {e}, {})
  {
  }

  lemma SoundWith(nodes: map<string, G.Node>, edges: set<Edge>, e: Edge)
    requires Sound(nodes, edges) && e.src in nodes && e.dst in nodes
    ensures Sound(nodes, edges + {e})
  {
  }

  /** What link makes of e for an asset. */
  function Attached(e: Edge, a: Asset): Edge {
    if e.src == "" then e.(src := AssetID(a)) else e.(dst := AssetID(a))
  }

  lemma AttachedReads(wf: Workflow, n: Node, relation: string, assets: seq<Asset>)
    ensures (set a | a in assets :: Attached(G.Edge("", WorkflowNodeID(wf.id), relation, wf.id, n.id), a)) ==
            set a | a in assets :: ReadEdge(wf, n, relation, a)
  {
  }

  lemma AttachedWrites(wf: Workflow, n: Node, relation: string, assets: seq<Asset>)
    ensures (set a | a in assets :: Attached(G.Edge(WorkflowNodeID(wf.id), "", relation, wf.id, n.id), a)) ==
            set a | a in assets :: WriteEdge(wf, n, relation, a)
  {
  }

  lemma OneMoreNode(sources: map<string, Source>, sinks: Sinks, wf: Workflow, k: nat, e: Edge)
    requires k < |wf.nodes|
    ensures WorkflowEdge(sources, sinks, wf, k + 1, e) <==>
            WorkflowEdge(sources, sinks, wf, k, e) || NodeEdge(sources, sinks, wf, wf.nodes[k], e)
  {
    hide NodeEdge;
  }

  // ------------------------------------------------------------------------- Derive

  method SourcesByID(sources: seq<Source>) returns (r: map<string, Source>)
    ensures SourcesIndexed(sources, r)
  {
    r := map[];
    for n := 0 to |sources|
      invariant forall k :: k in r ==> r[k] in sources && r[k].id == k
      invariant forall i :: 0 <= i < n ==> sources[i].id in r
    {
      r := r[sources[n].id := sources[n]];
    }
  }

  method SinksByID(sinks: seq<Sink>) returns (r: Sinks)
    ensures Keyed(r) && SinksIndexed(sinks, r)
  {
    r := map[];
    for n := 0 to |sinks|
      invariant forall k :: k in r ==> r[k] in sinks && r[k].id == k
      invariant forall i :: 0 <= i < n ==> sinks[i].id in r
    {
      r := r[sinks[n].id := sinks[n]];
    }
  }

  /** The graph holds each node and each edge of the builder once. */
  ghost predicate IsGraph(nodes: map<string, G.Node>, edges: set<Edge>, g: G.Graph) {
    Sequences.Distinct(g.edges) && (forall e :: e in g.edges <==> e in edges) &&
    (forall i, j :: 0 <= i < j < |g.nodes| ==> g.nodes[i].id != g.nodes[j].id) &&
    (forall n :: n in g.nodes <==> n.id in nodes && nodes[n.id] == n)
  }

  method ListNodes(nodes: map<string, G.Node>) returns (r: seq<G.Node>)
    requires forall k :: k in nodes ==> nodes[k].id == k
    ensures forall i, j :: 0 <= i < j < |r| ==> r[i].id != r[j].id
    ensures forall n :: n in r <==> n.id in nodes && nodes[n.id] == n
  {
    r := [];
    var keys := nodes.Keys;
    while keys != {}
      invariant keys <= nodes.Keys
      invariant forall i, j :: 0 <= i < j < |r| ==> r[i].id != r[j].id
      invariant forall n :: n in r <==> n.id in nodes && n.id !in keys && nodes[n.id] == n
      decreases keys
    {
      var k :| k in keys;
      r := r + [nodes[k]];
      keys := keys - {k};
    }
  }

  method ListEdges(edges: set<Edge>) returns (r: seq<Edge>)
    ensures Sequences.Distinct(r) && forall e :: e in r <==> e in edges
  {
    r := [];
    var rest := edges;
    while rest != {}
      invariant rest <= edges && Sequences.Distinct(r)
      invariant forall e :: e in r <==> e in edges && e !in rest
      decreases rest
    {
      var e :| e in rest;
      r := r + [e];
      rest := rest - {e};
    }
  }

  method Listing(nodes: map<string, G.Node>, edges: set<Edge>) returns (g: G.Graph)
    requires Sound(nodes, edges)
    ensures IsGraph(nodes, edges, g)
  {
    var listed := ListNodes(nodes);
    var wired := ListEdges(edges);
    g := G.Graph(listed, wired);
  }

  ghost predicate SourcesIndexed(sources: seq<Source>, r: map<string, Source>) {
    (forall k :: k in r ==> r[k] in sources && r[k].id == k) && (forall s :: s in sources ==> s.id in r)
  }

  ghost predicate SinksIndexed(sinks: seq<Sink>, r: Sinks) {
    (forall k :: k in r ==> r[k] in sinks) && (forall s :: s in sinks ==> s.id in r)
  }

  /** The records a graph was derived from, by id. */
  ghost predicate Indexed(ins: Inputs, sources: map<string, Source>, sinks: Sinks) {
    Keyed(sinks) && SinksIndexed(ins.sinks, sinks) && SourcesIndexed(ins.sources, sources)
  }

  /** The id of a workflow's or a model's own node. */
  ghost predicate OwnNode(ins: Inputs, w: nat, m: nat, id: string) {
    (exists i :: 0 <= i < w && i < |ins.workflows| && id == WorkflowNodeID(ins.workflows[i].id)) ||
    (exists i :: 0 <= i < m && i < |ins.models| && id == AssetID(ModelAsset(ins.models[i].vhost, ins.models[i].name)))
  }

  /** There is a node for each workflow, each model and each end of an edge, and no other. */
  ghost predicate Populated(ins: Inputs, w: nat, m: nat, nodes: map<string, G.Node>, edges: set<Edge>) {
    (forall k :: k in nodes <==> OwnNode(ins, w, m, k) || IsEnd(edges, k)) &&
    (forall i :: 0 <= i < w && i < |ins.workflows| && WorkflowNodeID(ins.workflows[i].id) in nodes ==>
      nodes[WorkflowNodeID(ins.workflows[i].id)].kind == G.KIND_WORKFLOW)
  }

  lemma PopulatedNone(ins: Inputs)
    ensures Populated(ins, 0, 0, map[], {})
  {
  }

  lemma PopulatedWorkflow(ins: Inputs, k: nat, before: map<string, G.Node>, after: map<string, G.Node>,
                          es: set<Edge>, fs: set<Edge>)
    requires k < |ins.workflows| && Populated(ins, k, 0, before, es) && es <= fs && Sound(after, fs)
    requires ExtendsWorkflow(before, after, fs, WorkflowNodeID(ins.workflows[k].id))
    requires WorkflowNodeID(ins.workflows[k].id) in after
    requires after[WorkflowNodeID(ins.workflows[k].id)].kind == G.KIND_WORKFLOW
    ensures Populated(ins, k + 1, 0, after, fs)
  {
    var wfID := WorkflowNodeID(ins.workflows[k].id);
    forall x ensures x in after <==> OwnNode(ins, k + 1, 0, x) || IsEnd(fs, x) {
      assert OwnNode(ins, k + 1, 0, x) <==> OwnNode(ins, k, 0, x) || x == wfID;
      assert IsEnd(es, x) ==> IsEnd(fs, x);
    }
    hide IsEnd, Sound;
    forall i | 0 <= i < k && WorkflowNodeID(ins.workflows[i].id) in after
      ensures after[WorkflowNodeID(ins.workflows[i].id)].kind == G.KIND_WORKFLOW
    {
      assert OwnNode(ins, k, 0, WorkflowNodeID(ins.workflows[i].id));
    }
  }

  lemma PopulatedModel(ins: Inputs, k: nat, before: map<string, G.Node>, after: map<string, G.Node>,
                       es: set<Edge>, fs: set<Edge>)
    requires k < |ins.models| && Populated(ins, |ins.workflows|, k, before, es) && es <= fs && Sound(after, fs)
    requires Extends(before, after, fs, {AssetID(ModelAsset(ins.models[k].vhost, ins.models[k].name))})
    requires AssetID(ModelAsset(ins.models[k].vhost, ins.models[k].name)) in after
    ensures Populated(ins, |ins.workflows|, k + 1, after, fs)
  {
    var w, mid := |ins.workflows|, AssetID(ModelAsset(ins.models[k].vhost, ins.models[k].name));
    forall x ensures x in after <==> OwnNode(ins, w, k + 1, x) || IsEnd(fs, x) {
      assert OwnNode(ins, w, k + 1, x) <==> OwnNode(ins, w, k, x) || x == mid;
      assert IsEnd(es, x) ==> IsEnd(fs, x);
    }
    hide IsEnd, Sound;
    forall i | 0 <= i < w && WorkflowNodeID(ins.workflows[i].id) in after
      ensures after[WorkflowNodeID(ins.workflows[i].id)].kind == G.KIND_WORKFLOW
    {
      assert OwnNode(ins, w, k, WorkflowNodeID(ins.workflows[i].id));
    }
  }

  /** g has exactly the reads and writes of the inputs, a node for each end, each workflow and
      each model, and no other node. */
  ghost predicate DerivedFrom(ins: Inputs, sources: map<string, Source>, sinks: Sinks, g: G.Graph) {
    Indexed(ins, sources, sinks) &&
    (forall e :: e in g.edges <==> InputEdge(ins, sources, sinks, |ins.workflows|, |ins.models|, e)) &&
    exists nodes, edges :: Sound(nodes, edges) && IsGraph(nodes, edges, g) &&
                           Populated(ins, |ins.workflows|, |ins.models|, nodes, edges)
  }

  ghost predicate IsDerived(ins: Inputs, g: G.Graph) {
    exists sources, sinks :: DerivedFrom(ins, sources, sinks, g)
  }

  /** Derive */
  method Derive(ins: Inputs) returns (g: G.Graph)
    ensures IsDerived(ins, g)
  {
    hide WorkflowEdge, ModelEdge;
    var src := SourcesByID(ins.sources);
    var snk := SinksByID(ins.sinks);
    var b := new Builder(src, snk);
    ghost var sources, sinks := src, snk;
    assert Sound(b.nodes, b.edges);
    PopulatedNone(ins);
    hide Sound, InputEdge, Populated, Extends, ExtendsWorkflow, HasEdges, IsGraph;
    hide Keyed, SourcesIndexed, SinksIndexed;
    InputsNone(ins, sources, sinks);
    for k := 0 to |ins.workflows|
      invariant b.sources == sources && b.sinks == sinks
      invariant Sound(b.nodes, b.edges) && Populated(ins, k, 0, b.nodes, b.edges)
      invariant HasEdges(ins, sources, sinks, k, 0, b.edges)
    {
      ghost var was, es := b.nodes, b.edges;
      b.AddWorkflow(ins.workflows[k]);
      PopulatedWorkflow(ins, k, was, b.nodes, es, b.edges);
      MoreWorkflows(ins, sources, sinks, k, es, b.edges);
    }
    for k := 0 to |ins.models|
      invariant Sound(b.nodes, b.edges) && Populated(ins, |ins.workflows|, k, b.nodes, b.edges)
      invariant HasEdges(ins, sources, sinks, |ins.workflows|, k, b.edges)
    {
      ghost var was, es := b.nodes, b.edges;
      b.AddModel(ins.models[k]);
      PopulatedModel(ins, k, was, b.nodes, es, b.edges);
      MoreModels(ins, sources, sinks, k, es, b.edges);
    }
    g := Listing(b.nodes, b.edges);
    GraphDerives(ins, sources, sinks, b.nodes, b.edges, g);
  }

  /** edges are those of the first w workflows and the first m models. */
  ghost predicate HasEdges(ins: Inputs, sources: map<string, Source>, sinks: Sinks, w: nat, m: nat, edges: set<Edge>) {
    forall e :: e in edges <==> InputEdge(ins, sources, sinks, w, m, e)
  }

  lemma InputsNone(ins: Inputs, sources: map<string, Source>, sinks: Sinks)
    ensures HasEdges(ins, sources, sinks, 0, 0, {})
  {
  }

  lemma MoreWorkflows(ins: Inputs, sources: map<string, Source>, sinks: Sinks, k: nat, es: set<Edge>, fs: set<Edge>)
    requires k < |ins.workflows| && HasEdges(ins, sources, sinks, k, 0, es)
    requires forall e :: e in fs <==>
      e in es || WorkflowEdge(sources, sinks, ins.workflows[k], |ins.workflows[k].nodes|, e)
    ensures HasEdges(ins, sources, sinks, k + 1, 0, fs)
  {
    hide WorkflowEdge;
  }

  lemma MoreModels(ins: Inputs, sources: map<string, Source>, sinks: Sinks, k: nat, es: set<Edge>, fs: set<Edge>)
    requires k < |ins.models| && HasEdges(ins, sources, sinks, |ins.workflows|, k, es)
    requires forall e :: e in fs <==> e in es || ModelEdge(ins.models[k], e)
    ensures HasEdges(ins, sources, sinks, |ins.workflows|, k + 1, fs)
  {
    hide WorkflowEdge, ModelEdge;
  }

  lemma GraphDerives(ins: Inputs, sources: map<string, Source>, sinks: Sinks, nodes: map<string, G.Node>,
                     edges: set<Edge>, g: G.Graph)
    requires Indexed(ins, sources, sinks) && Sound(nodes, edges) && IsGraph(nodes, edges, g)
    requires HasEdges(ins, sources, sinks, |ins.workflows|, |ins.models|, edges)
    requires Populated(ins, |ins.workflows|, |ins.models|, nodes, edges)
    ensures DerivedFrom(ins, sources, sinks, g)
  {
    hide Indexed, Sound, InputEdge, Populated;
  }

  // ------------------------------------------------------- impact over a derived graph

  ghost predicate EndsAreNodes(g: G.Graph) {
    forall e :: e in g.edges ==> e.src != "" && HasNode(g, e.src) && HasNode(g, e.dst)
  }

  ghost predicate HasNode(g: G.Graph, id: string) {
    exists n :: n in g.nodes && n.id == id
  }

  lemma DerivedEnds(ins: Inputs, sources: map<string, Source>, sinks: Sinks, g: G.Graph)
    requires DerivedFrom(ins, sources, sinks, g)
    ensures EndsAreNodes(g)
  {
    hide Indexed, InputEdge;
    var nodes, edges :| Sound(nodes, edges) && IsGraph(nodes, edges, g) &&
                        Populated(ins, |ins.workflows|, |ins.models|, nodes, edges);
    forall e | e in g.edges ensures e.src != "" && HasNode(g, e.src) && HasNode(g, e.dst) {
      assert e in edges;
      assert nodes[e.src] in g.nodes && nodes[e.dst] in g.nodes;
    }
  }

  /** A derived graph has a node for each workflow, each model and each end of an edge, and
      nothing else; a workflow's node is marked as one. */
  lemma DerivedNodes(ins: Inputs, sources: map<string, Source>, sinks: Sinks, g: G.Graph, id: string)
    requires DerivedFrom(ins, sources, sinks, g)
    ensures HasNode(g, id) <==>
            OwnNode(ins, |ins.workflows|, |ins.models|, id) || exists e :: e in g.edges && (e.src == id || e.dst == id)
    ensures forall n, i :: n in g.nodes && 0 <= i < |ins.workflows| && n.id == WorkflowNodeID(ins.workflows[i].id) ==>
              n.kind == G.KIND_WORKFLOW
  {
    hide Indexed, InputEdge, OwnNode;
    var nodes, edges :| Sound(nodes, edges) && IsGraph(nodes, edges, g) &&
                        Populated(ins, |ins.workflows|, |ins.models|, nodes, edges);
    assert id in nodes ==> nodes[id] in g.nodes;
    assert IsEnd(edges, id) <==> exists e :: e in g.edges && (e.src == id || e.dst == id);
  }

  /** A source a workflow reads is never left out: if its type says nothing, its connector
      stands for it. */
  lemma SourceIsShown(ins: Inputs, sources: map<string, Source>, sinks: Sinks, g: G.Graph, w: nat, i: nat)
    requires DerivedFrom(ins, sources, sinks, g)
    requires w < |ins.workflows| && i < |ins.workflows[w].nodes|
    requires ins.workflows[w].nodes[i].typ == "source" && ins.workflows[w].nodes[i].refID in sources
    ensures exists e :: e in g.edges && e.dst == WorkflowNodeID(ins.workflows[w].id) && e.relation == READS &&
                        e.nodeID == ins.workflows[w].nodes[i].id
  {
    var wf := ins.workflows[w];
    var n := wf.nodes[i];
    var s := sources[n.refID];
    var a := if s.assets == [] then Connector(s.typ, "source", s.id, s.name) else s.assets[0];
    assert SourceUse(s, a);
    var e := ReadEdge(wf, n, READS, a);
    assert NodeEdge(sources, sinks, wf, n, e);
    assert WorkflowEdge(sources, sinks, wf, |wf.nodes|, e);
    assert InputEdge(ins, sources, sinks, |ins.workflows|, |ins.models|, e);
    assert e in g.edges;
  }

  /** On a derived graph every node an impact lists is one of the graph's own, and its path
      is a whole, real, shortest one. */
  lemma ImpactOfDerived(ins: Inputs, sources: map<string, Source>, sinks: Sinks, g: G.Graph, id: string,
                        imp: D.Impact, k: nat)
    requires DerivedFrom(ins, sources, sinks, g) && D.Answers(g, id, imp) && k < |imp.impacted|
    ensures imp.impacted[k].node in g.nodes && imp.impacted[k].node.id == D.Target(imp.impacted[k])
    ensures D.ReachedBy(g.edges, id, imp.impacted[k], imp.impacted[k].path)
  {
    hide DerivedFrom, D.Answers;
    DerivedEnds(ins, sources, sinks, g);
    assert D.NoBlankSource(g.edges);
    D.PathsAreReal(g, id, imp, k);
    D.DownstreamExact(g, id, imp);
    var item := imp.impacted[k];
    StepEndsAtNode(g, item.path[|item.path| - 2], D.Target(item), item.relation);
    assert item.node == D.LastNode(g.nodes, D.Target(item));
  }

  lemma StepEndsAtNode(g: G.Graph, x: string, y: string, relation: string)
    requires EndsAreNodes(g) && G.LeadsBy(g.edges, x, y, relation)
    ensures HasNode(g, y)
  {
  }

  /** Changing a workflow is shown to affect every asset of every plain sink that its sink
      node reaches through failover and txgroup members. */
  lemma ImpactReachesMembers(ins: Inputs, sources: map<string, Source>, sinks: Sinks, g: G.Graph, imp: D.Impact,
                             w: nat, i: nat, l: string, a: Asset)
    requires DerivedFrom(ins, sources, sinks, g)
    requires w < |ins.workflows| && i < |ins.workflows[w].nodes|
    requires ins.workflows[w].nodes[i].typ == "sink"
    requires Reaches(sinks, ins.workflows[w].nodes[i].refID, l) && l in sinks && !IsComposite(sinks[l]) &&
        a in sinks[l].assets
    requires D.Answers(g, WorkflowNodeID(ins.workflows[w].id), imp)
    requires AssetID(a) != WorkflowNodeID(ins.workflows[w].id)
    ensures D.Mentions(imp.impacted, AssetID(a))
  {
    hide D.Answers, Reaches;
    var wf := ins.workflows[w];
    var n := wf.nodes[i];
    WrittenThrough(ins, sources, sinks, wf, n, l, a);
    var e := WriteEdge(wf, n, WRITES, a);
    assert WorkflowEdge(sources, sinks, wf, |wf.nodes|, e);
    assert InputEdge(ins, sources, sinks, |ins.workflows|, |ins.models|, e);
    assert e in g.edges;
    OneEdgeReaches(g.edges, e);
    D.DownstreamExact(g, WorkflowNodeID(wf.id), imp);
  }

  lemma OneEdgeReaches(edges: seq<Edge>, e: Edge)
    requires e in edges
    ensures G.Reachable(edges, e.src, e.dst)
  {
    var path := [e.src, e.dst];
    assert G.Leads(edges, path[0], path[1]);
    assert G.PathTo(edges, e.src, e.dst, path);
  }

  lemma WrittenThrough(ins: Inputs, sources: map<string, Source>, sinks: Sinks, wf: Workflow, n: Node, l: string,
                       a: Asset)
    requires Keyed(sinks) && n.typ == "sink" && Reaches(sinks, n.refID, l) && l in sinks && !IsComposite(sinks[l])
    requires a in sinks[l].assets
    ensures NodeEdge(sources, sinks, wf, n, WriteEdge(wf, n, WRITES, a))
  {
    var p :| PathFromTo(sinks, n.refID, l, p);
    assert forall i :: 0 <= i < |p| - 1 ==> IsPart(sinks, p[i]);
    assert n.refID in sinks;
    assert a in LeafAssets(sinks, l);
    assert Writes(sinks, n.refID, a);
    assert SinkUse(sinks, sinks[n.refID], a);
  }
}
