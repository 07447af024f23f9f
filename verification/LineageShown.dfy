/** What a derived graph shows, edge by edge, and that workflows are joined through the assets
    they share (internal/lineage/model.go, locator.go and derive.go). */
module LineageShown {
  import G = LineageGraph
  import D = LineageDownstream
  import opened CompositeSinks
  import opened LineageDerive

  /** The id: kind, system, place and, if there is one, the object behind one slash. */
  lemma AssetIDIs(a: Asset)
    ensures var base := a.kind + ":" + a.system + "://" + a.locator;
      AssetID(a) == if a.obj == "" then base else if a.obj[0] == '/' then base + a.obj else base + "/" + a.obj
  {
    if a.obj != "" && a.obj[0] == '/' { assert "/" + a.obj[1..] == a.obj; }
  }

  /** Two records of the same table, topic or file are one asset, whatever they are called. */
  lemma SameAsset(a: Asset, b: Asset)
    requires a.kind == b.kind && a.system == b.system && a.locator == b.locator && a.obj == b.obj
    ensures AssetID(a) == AssetID(b)
  {
  }

  /** The node of a workflow's list, on a derived graph. */
  ghost predicate At(ins: Inputs, w: nat, i: nat) {
    w < |ins.workflows| && i < |ins.workflows[w].nodes|
  }

  lemma EdgeIsThere(ins: Inputs, sources: map<string, Source>, sinks: Sinks, g: G.Graph, w: nat, i: nat, e: Edge)
    requires DerivedFrom(ins, sources, sinks, g) && At(ins, w, i)
    requires NodeEdge(sources, sinks, ins.workflows[w], ins.workflows[w].nodes[i], e)
    ensures e in g.edges
  {
    hide NodeEdge, Indexed;
    assert WorkflowEdge(sources, sinks, ins.workflows[w], |ins.workflows[w].nodes|, e);
    assert InputEdge(ins, sources, sinks, |ins.workflows|, |ins.models|, e);
  }

  /** A workflow reads every asset of a source its node names. */
  lemma ReadsShown(ins: Inputs, sources: map<string, Source>, sinks: Sinks, g: G.Graph, w: nat, i: nat, a: Asset)
    requires DerivedFrom(ins, sources, sinks, g) && At(ins, w, i)
    requires var n := ins.workflows[w].nodes[i];
      n.typ == "source" && n.refID in sources && a in sources[n.refID].assets
    ensures G.LeadsBy(g.edges, AssetID(a), "workflow:" + ins.workflows[w].id, "reads")
  {
    hide DerivedFrom;
    var wf := ins.workflows[w];
    var e := G.Edge(AssetID(a), "workflow:" + wf.id, "reads", wf.id, wf.nodes[i].id);
    assert SourceUse(sources[wf.nodes[i].refID], a);
    assert NodeEdge(sources, sinks, wf, wf.nodes[i], e);
    EdgeIsThere(ins, sources, sinks, g, w, i, e);
  }

  /** It writes every asset of a plain sink its node names, or reaches through failovers and
      txgroups. */
  lemma WritesShown(ins: Inputs, sources: map<string, Source>, sinks: Sinks, g: G.Graph, w: nat, i: nat, l: string,
                    a: Asset)
    requires DerivedFrom(ins, sources, sinks, g) && At(ins, w, i)
    requires var n := ins.workflows[w].nodes[i];
      n.typ == "sink" && Reaches(sinks, n.refID, l) && l in sinks && !IsComposite(sinks[l]) && a in sinks[l].assets
    ensures G.LeadsBy(g.edges, "workflow:" + ins.workflows[w].id, AssetID(a), "writes")
  {
    var wf := ins.workflows[w];
    KeyedSinks(ins, sources, sinks, g);
    hide DerivedFrom, Reaches;
    var e := G.Edge("workflow:" + wf.id, AssetID(a), "writes", wf.id, wf.nodes[i].id);
    WrittenThrough(ins, sources, sinks, wf, wf.nodes[i], l, a);
    hide NodeEdge;
    EdgeIsThere(ins, sources, sinks, g, w, i, e);
  }

  lemma KeyedSinks(ins: Inputs, sources: map<string, Source>, sinks: Sinks, g: G.Graph)
    requires DerivedFrom(ins, sources, sinks, g)
    ensures Keyed(sinks)
  {
  }

  /** What any other node touches is shown the way the data flows. */
  lemma UseShown(ins: Inputs, sources: map<string, Source>, sinks: Sinks, g: G.Graph, w: nat, i: nat, u: Use)
    requires DerivedFrom(ins, sources, sinks, g) && At(ins, w, i)
    requires var n := ins.workflows[w].nodes[i]; n.typ != "source" && n.typ != "sink" && u in n.uses
    ensures if u.out then G.LeadsBy(g.edges, "workflow:" + ins.workflows[w].id, AssetID(u.asset), u.relation)
            else G.LeadsBy(g.edges, AssetID(u.asset), "workflow:" + ins.workflows[w].id, u.relation)
  {
    hide DerivedFrom;
    var wf := ins.workflows[w];
    var x, y := "workflow:" + wf.id, AssetID(u.asset);
    var e := if u.out then G.Edge(x, y, u.relation, wf.id, wf.nodes[i].id)
             else G.Edge(y, x, u.relation, wf.id, wf.nodes[i].id);
    assert NodeEdge(sources, sinks, wf, wf.nodes[i], e);
    EdgeIsThere(ins, sources, sinks, g, w, i, e);
  }

  /** A model that retrains is shown to be trained on its dataset. */
  lemma TrainingShown(ins: Inputs, sources: map<string, Source>, sinks: Sinks, g: G.Graph, k: nat)
    requires DerivedFrom(ins, sources, sinks, g) && k < |ins.models| && ins.models[k].trainedOn != ""
    ensures var m := ins.models[k]; var vhost := if m.vhost == "" then "default" else m.vhost;
      G.LeadsBy(g.edges, AssetID(Asset("dataset", "ml", vhost, m.trainedOn, "")),
                AssetID(Asset("model", "ml", vhost, m.name, "")), "trains")
  {
    hide Indexed, WorkflowEdge, AssetID;
    var m := ins.models[k];
    var vhost := if m.vhost == "" then "default" else m.vhost;
    var e := G.Edge(AssetID(Asset("dataset", "ml", vhost, m.trainedOn, "")),
                    AssetID(Asset("model", "ml", vhost, m.name, "")), "trains", "", "");
    assert ModelEdge(m, e);
    assert InputEdge(ins, sources, sinks, |ins.workflows|, |ins.models|, e);
  }

  // ---------------------------------------------------------- workflows joined by assets

  lemma TwoSteps(edges: seq<Edge>, x: string, y: string, z: string, r: string, q: string)
    requires G.LeadsBy(edges, x, y, r) && G.LeadsBy(edges, y, z, q)
    ensures G.Reachable(edges, x, z)
  {
    var path := [x, y, z];
    assert G.Leads(edges, path[0], path[1]) && G.Leads(edges, path[1], path[2]);
    assert G.PathTo(edges, x, z, path);
  }

  /** A workflow that writes an asset is shown to affect every workflow that reads it, even when
      each names a record of its own. */
  lemma WorkflowsJoin(ins: Inputs, sources: map<string, Source>, sinks: Sinks, g: G.Graph, imp: D.Impact,
                      v: nat, i: nat, l: string, a: Asset, w: nat, j: nat, b: Asset)
    requires DerivedFrom(ins, sources, sinks, g) && At(ins, v, i) && At(ins, w, j)
    requires var n := ins.workflows[v].nodes[i];
      n.typ == "sink" && Reaches(sinks, n.refID, l) && l in sinks && !IsComposite(sinks[l]) && a in sinks[l].assets
    requires var n := ins.workflows[w].nodes[j];
      n.typ == "source" && n.refID in sources && b in sources[n.refID].assets
    requires a.kind == b.kind && a.system == b.system && a.locator == b.locator && a.obj == b.obj
    requires D.Answers(g, "workflow:" + ins.workflows[v].id, imp) && ins.workflows[v].id != ins.workflows[w].id
    ensures D.Mentions(imp.impacted, "workflow:" + ins.workflows[w].id)
  {
    WritesShown(ins, sources, sinks, g, v, i, l, a);
    ReadsShown(ins, sources, sinks, g, w, j, b);
    SameAsset(a, b);
    hide DerivedFrom, D.Answers, Reaches, AssetID;
    var x, z := "workflow:" + ins.workflows[v].id, "workflow:" + ins.workflows[w].id;
    TwoSteps(g.edges, x, AssetID(a), z, "writes", "reads");
    assert x[|"workflow:"|..] == ins.workflows[v].id && z[|"workflow:"|..] == ins.workflows[w].id;
    D.DownstreamExact(g, x, imp);
  }
}
