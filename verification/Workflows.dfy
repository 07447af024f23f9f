/** Workflows as the environment service sees them, the connections they name,
    and the rewriting of those names when a workflow moves between instances
    (internal/environment/promote.go). */
module Workflows {

  /** A setting of a node: text, or anything else JSON can hold. */
  datatype Setting = Text(text: string) | NonText(raw: int)

  datatype Node = Node(id: string, typ: string, refID: string, config: map<string, Setting>)

  datatype Edge = Edge(sourceID: string, targetID: string)

  /** The columns that describe this instance's run and placement. */
  datatype Run = Run(workspaceID: string, status: string, workerID: string, processed: nat, errors: nat)

  datatype Workflow = Workflow(
    id: string, name: string, vhost: string, nodes: seq<Node>, edges: seq<Edge>,
    settings: string, active: bool, run: Run)

  /** The part of a workflow a promotion changes and a rollback restores. */
  datatype Definition = Definition(name: string, nodes: seq<Node>, edges: seq<Edge>, settings: string)

  function DefinitionOf(wf: Workflow): Definition {
    Definition(wf.name, wf.nodes, wf.edges, wf.settings)
  }

  /** The config keys through which any node may name a source. */
  const SOURCE_KEYS := ["sourceId", "sourceID"]

  // ---------------------------------------------------------------- sequences

  /** s without repetitions, each item where it first occurs. */
  function Dedup(s: seq<string>): (r: seq<string>)
    ensures forall x :: x in r <==> x in s
    ensures forall i, j :: 0 <= i < j < |r| ==> r[i] != r[j]
  {
    if s == [] then [] else
      var r := Dedup(s[..|s| - 1]);
      var x := s[|s| - 1];
      assert s == s[..|s| - 1] + [x];
      if x in r then r else r + [x]
  }

  lemma DedupSnoc(s: seq<string>, x: string)
    ensures Dedup(s + [x]) == if x in Dedup(s) then Dedup(s) else Dedup(s) + [x]
  {
    assert (s + [x])[..|s|] == s;
  }

  /** The images of the items of s under m; an item m does not hold stays. */
  function Rename(m: map<string, string>, x: string): string {
    if x in m then m[x] else x
  }

  function RenameAll(m: map<string, string>, s: seq<string>): (r: seq<string>)
    ensures |r| == |s| && forall i :: 0 <= i < |s| ==> r[i] == Rename(m, s[i])
  {
    seq(|s|, i requires 0 <= i < |s| => Rename(m, s[i]))
  }

  lemma RenameAllSnoc(m: map<string, string>, s: seq<string>, x: string)
    ensures RenameAll(m, s + [x]) == RenameAll(m, s) + [Rename(m, x)]
  {
  }

  lemma RenameAllConcat(m: map<string, string>, s: seq<string>, t: seq<string>)
    ensures RenameAll(m, s + t) == RenameAll(m, s) + RenameAll(m, t)
  {
  }

  /** Dropping repetitions before or after renaming gives the same list. */
  lemma {:induction false} DedupRename(m: map<string, string>, s: seq<string>)
    ensures Dedup(RenameAll(m, Dedup(s))) == Dedup(RenameAll(m, s))
  {
    if s != [] {
      var t, x := s[..|s| - 1], s[|s| - 1];
      assert s == t + [x];
      DedupRename(m, t);
      DedupSnoc(t, x);
      RenameAllSnoc(m, t, x);
      DedupSnoc(RenameAll(m, t), Rename(m, x));
      if x in Dedup(t) {
        var i :| 0 <= i < |t| && t[i] == x;
        assert RenameAll(m, t)[i] == Rename(m, x);
      } else {
        RenameAllSnoc(m, Dedup(t), x);
        DedupSnoc(RenameAll(m, Dedup(t)), Rename(m, x));
      }
    }
  }

  // ------------------------------------------------------- references by node

  function NonEmpty(x: string): seq<string> {
    if x == "" then [] else [x]
  }

  function ConfigRef(n: Node, key: string): seq<string> {
    if key in n.config && n.config[key].Text? then NonEmpty(n.config[key].text) else []
  }

  function OwnSource(n: Node): seq<string> {
    if n.typ == "source" then NonEmpty(n.refID) else []
  }

  /** Every source n names, in the order it is looked for. */
  function NodeSources(n: Node): seq<string> {
    OwnSource(n) + ConfigRef(n, "sourceId") + ConfigRef(n, "sourceID")
  }

  function NodeSinks(n: Node): seq<string> {
    if n.typ == "sink" then NonEmpty(n.refID) else []
  }

  function RawSources(nodes: seq<Node>): seq<string> {
    if nodes == [] then [] else RawSources(nodes[..|nodes| - 1]) + NodeSources(nodes[|nodes| - 1])
  }

  function RawSinks(nodes: seq<Node>): seq<string> {
    if nodes == [] then [] else RawSinks(nodes[..|nodes| - 1]) + NodeSinks(nodes[|nodes| - 1])
  }

  /** The sources and sinks wf names, each once, in node order. */
  function Sources(wf: Workflow): seq<string> { Dedup(RawSources(wf.nodes)) }

  function Sinks(wf: Workflow): seq<string> { Dedup(RawSinks(wf.nodes)) }

  lemma RawSnoc(nodes: seq<Node>, n: Node)
    ensures RawSources(nodes + [n]) == RawSources(nodes) + NodeSources(n)
    ensures RawSinks(nodes + [n]) == RawSinks(nodes) + NodeSinks(n)
  {
    assert (nodes + [n])[..|nodes|] == nodes;
  }

  /** Whatever a node names is a reference of the workflow. */
  lemma {:induction false} NodeRefsAreRefs(nodes: seq<Node>, i: nat)
    requires i < |nodes|
    ensures forall x :: x in NodeSources(nodes[i]) ==> x in RawSources(nodes)
    ensures forall x :: x in NodeSinks(nodes[i]) ==> x in RawSinks(nodes)
  {
    if i < |nodes| - 1 { NodeRefsAreRefs(nodes[..|nodes| - 1], i); }
  }

  /** n names x as a source: as a source node itself, or under one of the two keys any node may
      name a source with. A blank names nothing. */
  predicate NamesSource(n: Node, x: string) {
    x != "" && ((n.typ == "source" && n.refID == x) || ("sourceId" in n.config && n.config["sourceId"] == Text(x)) ||
                ("sourceID" in n.config && n.config["sourceID"] == Text(x)))
  }

  predicate NamesSink(n: Node, x: string) { x != "" && n.typ == "sink" && n.refID == x }

  lemma NodeNames(n: Node, x: string)
    ensures x in NodeSources(n) <==> NamesSource(n, x)
    ensures x in NodeSinks(n) <==> NamesSink(n, x)
  {
  }

  lemma {:induction false} RawNames(nodes: seq<Node>, x: string)
    ensures x in RawSources(nodes) <==> exists i :: 0 <= i < |nodes| && NamesSource(nodes[i], x)
    ensures x in RawSinks(nodes) <==> exists i :: 0 <= i < |nodes| && NamesSink(nodes[i], x)
  {
    hide NodeSources, NodeSinks, NamesSource, NamesSink;
    if nodes != [] {
      var n := |nodes| - 1;
      RawNames(nodes[..n], x);
      NodeNames(nodes[n], x);
      assert forall i :: 0 <= i < n ==> nodes[..n][i] == nodes[i];
    }
  }

  /** The references of a workflow are exactly what its nodes name, each once. */
  lemma RefsAreNames(wf: Workflow)
    ensures forall x :: x in Sources(wf) <==> exists i :: 0 <= i < |wf.nodes| && NamesSource(wf.nodes[i], x)
    ensures forall x :: x in Sinks(wf) <==> exists i :: 0 <= i < |wf.nodes| && NamesSink(wf.nodes[i], x)
    ensures forall i, j :: 0 <= i < j < |Sources(wf)| ==> Sources(wf)[i] != Sources(wf)[j]
    ensures forall i, j :: 0 <= i < j < |Sinks(wf)| ==> Sinks(wf)[i] != Sinks(wf)[j]
  {
    forall x
      ensures x in Sources(wf) <==> exists i :: 0 <= i < |wf.nodes| && NamesSource(wf.nodes[i], x)
      ensures x in Sinks(wf) <==> exists i :: 0 <= i < |wf.nodes| && NamesSink(wf.nodes[i], x)
    {
      RawNames(wf.nodes, x);
    }
  }

  /** Adds x to known unless it is blank or already there. */
  function AddRef(known: seq<string>, x: string): seq<string> {
    if x != "" && x !in known then known + [x] else known
  }

  lemma AddRefIsDedup(raw: seq<string>, x: string)
    ensures AddRef(Dedup(raw), x) == Dedup(raw + NonEmpty(x))
  {
    if x != "" { DedupSnoc(raw, x); } else { assert raw + [] == raw; }
  }

  /** The inner loop of workflowRefs: the sources n's settings name. */
  method AddConfigRefs(n: Node, known: seq<string>, ghost raw: seq<string>) returns (sources: seq<string>)
    requires known == Dedup(raw)
    ensures sources == Dedup(raw + ConfigRef(n, "sourceId") + ConfigRef(n, "sourceID"))
  {
    sources := known;
    ghost var seen := raw;
    for k := 0 to |SOURCE_KEYS|
      invariant sources == Dedup(seen)
      invariant k == 0 ==> seen == raw
      invariant k == 1 ==> seen == raw + ConfigRef(n, "sourceId")
      invariant k == 2 ==> seen == raw + ConfigRef(n, "sourceId") + ConfigRef(n, "sourceID")
    {
      var key := SOURCE_KEYS[k];
      if key in n.config && n.config[key].Text? {
        AddRefIsDedup(seen, n.config[key].text);
        sources := AddRef(sources, n.config[key].text);
      } else {
        assert seen + [] == seen;
      }
      seen := seen + ConfigRef(n, key);
    }
  }

  lemma RefsStep(nodes: seq<Node>, i: nat)
    requires i < |nodes|
    ensures RawSources(nodes[..i + 1])
            == RawSources(nodes[..i]) + OwnSource(nodes[i]) + ConfigRef(nodes[i], "sourceId") + ConfigRef(nodes[i],
                "sourceID")
    ensures RawSinks(nodes[..i + 1]) == RawSinks(nodes[..i]) + NodeSinks(nodes[i])
  {
    assert nodes[..i] + [nodes[i]] == nodes[..i + 1];
    RawSnoc(nodes[..i], nodes[i]);
  }

  /** The switch of workflowRefs: a source or sink node's own reference. */
  method AddOwnRef(n: Node, knownSources: seq<string>, knownSinks: seq<string>, ghost raw: seq<string>,
                   ghost rawSinks: seq<string>)
    returns (sources: seq<string>, sinks: seq<string>)
    requires knownSources == Dedup(raw) && knownSinks == Dedup(rawSinks)
    ensures sources == Dedup(raw + OwnSource(n)) && sinks == Dedup(rawSinks + NodeSinks(n))
  {
    sources, sinks := knownSources, knownSinks;
    assert raw + [] == raw && rawSinks + [] == rawSinks;
    if n.typ == "source" {
      AddRefIsDedup(raw, n.refID);
      sources := AddRef(sources, n.refID);
    } else if n.typ == "sink" {
      AddRefIsDedup(rawSinks, n.refID);
      sinks := AddRef(sinks, n.refID);
    }
  }

  /** workflowRefs: the loop over the nodes, with its two growing lists. */
  method WorkflowRefs(wf: Workflow) returns (sources: seq<string>, sinks: seq<string>)
    ensures sources == Sources(wf) && sinks == Sinks(wf)
  {
    sources, sinks := [], [];
    for i := 0 to |wf.nodes|
      invariant sources == Dedup(RawSources(wf.nodes[..i]))
      invariant sinks == Dedup(RawSinks(wf.nodes[..i]))
    {
      var n := wf.nodes[i];
      ghost var raw, rawSinks := RawSources(wf.nodes[..i]), RawSinks(wf.nodes[..i]);
      RefsStep(wf.nodes, i);
      sources, sinks := AddOwnRef(n, sources, sinks, raw, rawSinks);
      sources := AddConfigRefs(n, sources, raw + OwnSource(n));
    }
    assert wf.nodes[..|wf.nodes|] == wf.nodes;
  }

  // ---------------------------------------------------------------- rewriting

  function RewriteSetting(m: map<string, string>, v: Setting): Setting {
    if v.Text? then Text(Rename(m, v.text)) else v
  }

  function RewriteConfig(config: map<string, Setting>, m: map<string, string>): (r: map<string, Setting>)
    ensures r.Keys == config.Keys
  {
    map k | k in config :: if k in SOURCE_KEYS then RewriteSetting(m, config[k]) else config[k]
  }

  function RewriteNode(n: Node, srcMap: map<string, string>, sinkMap: map<string, string>): Node {
    n.(refID := if n.typ == "source" then Rename(srcMap, n.refID)
                else if n.typ == "sink" then Rename(sinkMap, n.refID) else n.refID,
       config := RewriteConfig(n.config, srcMap))
  }

  function Rewrite(wf: Workflow, srcMap: map<string, string>, sinkMap: map<string, string>): Workflow {
    wf.(nodes := seq(|wf.nodes|, i requires 0 <= i < |wf.nodes| => RewriteNode(wf.nodes[i], srcMap, sinkMap)))
  }

  /** rewriteRefs: every node is copied, its references replaced, and the copy stored. */
  method RewriteRefs(wf: Workflow, srcMap: map<string, string>, sinkMap: map<string, string>) returns (out: Workflow)
    ensures out == Rewrite(wf, srcMap, sinkMap)
  {
    var nodes: seq<Node> := [];
    for i := 0 to |wf.nodes|
      invariant |nodes| == i
      invariant forall j :: 0 <= j < i ==> nodes[j] == RewriteNode(wf.nodes[j], srcMap, sinkMap)
    {
      var n := wf.nodes[i];
      if n.typ == "source" {
        if n.refID in srcMap { n := n.(refID := srcMap[n.refID]); }
      } else if n.typ == "sink" {
        if n.refID in sinkMap { n := n.(refID := sinkMap[n.refID]); }
      }
      for k := 0 to |SOURCE_KEYS|
        invariant n.config.Keys == wf.nodes[i].config.Keys
        invariant n == RewriteNode(wf.nodes[i], srcMap, sinkMap).(config := n.config)
        invariant forall key :: key in n.config ==>
          n.config[key] == if key in SOURCE_KEYS[..k] then RewriteSetting(srcMap, wf.nodes[i].config[key])
              else wf.nodes[i].config[key]
      {
        var key := SOURCE_KEYS[k];
        assert SOURCE_KEYS[..k + 1] == SOURCE_KEYS[..k] + [key];
        assert key !in SOURCE_KEYS[..k];
        if key in n.config && n.config[key].Text? && n.config[key].text in srcMap {
          n := n.(config := n.config[key := Text(srcMap[n.config[key].text])]);
        }
      }
      assert SOURCE_KEYS[..|SOURCE_KEYS|] == SOURCE_KEYS;
      assert n.config == RewriteConfig(wf.nodes[i].config, srcMap);
      nodes := nodes + [n];
    }
    out := wf.(nodes := nodes);
  }

  /** x after rewriting: what m has for it, or itself. */
  predicate Becomes(m: map<string, string>, x: string, y: string) { if x in m then y == m[x] else y == x }

  /** Node by node: a source's and a sink's own reference is replaced under its kind's map, a text
      under either of the two source keys under the source map, and everything else stays. */
  lemma RewritesRefs(wf: Workflow, srcMap: map<string, string>, sinkMap: map<string, string>, i: nat)
    requires i < |wf.nodes|
    ensures var out := Rewrite(wf, srcMap, sinkMap);
      && out == wf.(nodes := out.nodes) && |out.nodes| == |wf.nodes|
      && var n, o := wf.nodes[i], out.nodes[i];
        && o == n.(refID := o.refID, config := o.config) && o.config.Keys == n.config.Keys
        && (n.typ == "source" ==> Becomes(srcMap, n.refID, o.refID))
        && (n.typ == "sink" ==> Becomes(sinkMap, n.refID, o.refID))
        && (n.typ != "source" && n.typ != "sink" ==> o.refID == n.refID)
        && (forall k :: k in n.config ==>
              if (k == "sourceId" || k == "sourceID") && n.config[k].Text? then
                o.config[k].Text? && Becomes(srcMap, n.config[k].text, o.config[k].text)
              else o.config[k] == n.config[k])
  {
  }

  // ----------------------------------------------- the references are carried

  /** m neither makes a reference out of a blank nor blanks one. */
  predicate KeepsBlank(m: map<string, string>) {
    forall k :: k in m ==> (k == "" <==> m[k] == "")
  }

  predicate CarriesRefs(wf: Workflow, srcMap: map<string, string>, sinkMap: map<string, string>) {
    var out := Rewrite(wf, srcMap, sinkMap);
    && Sources(out) == Dedup(RenameAll(srcMap, Sources(wf)))
    && Sinks(out) == Dedup(RenameAll(sinkMap, Sinks(wf)))
  }

  lemma NonEmptyRename(m: map<string, string>, x: string)
    requires KeepsBlank(m)
    ensures NonEmpty(Rename(m, x)) == RenameAll(m, NonEmpty(x))
  {
  }

  lemma RewriteNodeRefs(n: Node, srcMap: map<string, string>, sinkMap: map<string, string>)
    requires KeepsBlank(srcMap) && KeepsBlank(sinkMap)
    ensures NodeSources(RewriteNode(n, srcMap, sinkMap)) == RenameAll(srcMap, NodeSources(n))
    ensures NodeSinks(RewriteNode(n, srcMap, sinkMap)) == RenameAll(sinkMap, NodeSinks(n))
  {
    NonEmptyRename(srcMap, n.refID);
    NonEmptyRename(sinkMap, n.refID);
    var out := RewriteNode(n, srcMap, sinkMap);
    forall key | key in SOURCE_KEYS
      ensures ConfigRef(out, key) == RenameAll(srcMap, ConfigRef(n, key))
    {
      if key in n.config && n.config[key].Text? { NonEmptyRename(srcMap, n.config[key].text); }
    }
    assert "sourceId" == SOURCE_KEYS[0] && "sourceID" == SOURCE_KEYS[1];
    var own := OwnSource(n);
    RenameAllConcat(srcMap, own, ConfigRef(n, "sourceId"));
    RenameAllConcat(srcMap, own + ConfigRef(n, "sourceId"), ConfigRef(n, "sourceID"));
  }

  lemma {:induction false} RewriteRaw(nodes: seq<Node>, out: seq<Node>, srcMap: map<string, string>,
                                      sinkMap: map<string, string>)
    requires KeepsBlank(srcMap) && KeepsBlank(sinkMap)
    requires |out| == |nodes| && forall i :: 0 <= i < |nodes| ==> out[i] == RewriteNode(nodes[i], srcMap, sinkMap)
    ensures RawSources(out) == RenameAll(srcMap, RawSources(nodes))
    ensures RawSinks(out) == RenameAll(sinkMap, RawSinks(nodes))
  {
    if nodes != [] {
      var k := |nodes| - 1;
      RewriteRaw(nodes[..k], out[..k], srcMap, sinkMap);
      RewriteNodeRefs(nodes[k], srcMap, sinkMap);
      RenameAllConcat(srcMap, RawSources(nodes[..k]), NodeSources(nodes[k]));
      RenameAllConcat(sinkMap, RawSinks(nodes[..k]), NodeSinks(nodes[k]));
    }
  }

  lemma RewriteCarriesRefs(wf: Workflow, srcMap: map<string, string>, sinkMap: map<string, string>)
    requires KeepsBlank(srcMap) && KeepsBlank(sinkMap)
    ensures CarriesRefs(wf, srcMap, sinkMap)
  {
    RewriteRaw(wf.nodes, Rewrite(wf, srcMap, sinkMap).nodes, srcMap, sinkMap);
    DedupRename(srcMap, RawSources(wf.nodes));
    DedupRename(sinkMap, RawSinks(wf.nodes));
  }

  function OneNode(n: Node): Workflow {
    Workflow("w", "w", "", [n], [], "", false, Run("", "", "", 0, 0))
  }

  /** The references of every rewritten workflow are the image of the original's
      exactly when neither map turns a blank into a name or a name into a blank. */
  lemma RewriteImageIff(srcMap: map<string, string>, sinkMap: map<string, string>)
    ensures (forall wf: Workflow :: CarriesRefs(wf, srcMap, sinkMap)) <==> KeepsBlank(srcMap) && KeepsBlank(sinkMap)
  {
    if KeepsBlank(srcMap) && KeepsBlank(sinkMap) {
      forall wf: Workflow ensures CarriesRefs(wf, srcMap, sinkMap) {
        RewriteCarriesRefs(wf, srcMap, sinkMap);
      }
    } else if !KeepsBlank(srcMap) {
      BreaksSourceImage(srcMap, sinkMap);
    } else {
      BreaksSinkImage(srcMap, sinkMap);
    }
  }

  lemma DedupSingle(x: string)
    ensures Dedup([x]) == [x]
  {
    assert [] + [x] == [x];
    DedupSnoc([], x);
  }

  lemma OneNodeRefs(n: Node)
    requires n.config == map[]
    ensures RawSources([n]) == (if n.typ == "source" then NonEmpty(n.refID) else [])
    ensures RawSinks([n]) == if n.typ == "sink" then NonEmpty(n.refID) else []
  {
    assert [] + [n] == [n];
    RawSnoc([], n);
  }

  /** One source or sink node is enough to see a map that does not keep blanks. */
  lemma OneNodeImage(n: Node, m: map<string, string>, srcMap: map<string, string>, sinkMap: map<string, string>)
    requires n.config == map[] && n.refID in m
    requires (n.typ == "source" && m == srcMap) || (n.typ == "sink" && m == sinkMap)
    ensures var wf, out := OneNode(n), Rewrite(OneNode(n), srcMap, sinkMap);
      if n.typ == "source" then Sources(wf) == NonEmpty(n.refID) && Sources(out) == NonEmpty(m[n.refID])
      else Sinks(wf) == NonEmpty(n.refID) && Sinks(out) == NonEmpty(m[n.refID])
  {
    var out := RewriteNode(n, srcMap, sinkMap);
    assert Rewrite(OneNode(n), srcMap, sinkMap).nodes == [out];
    assert out.config == map[] && out.refID == m[n.refID];
    OneNodeRefs(n);
    OneNodeRefs(out);
    DedupSingle(n.refID);
    DedupSingle(m[n.refID]);
  }

  lemma BlankChangesCount(m: map<string, string>, k: string)
    requires k in m && (k == "") != (m[k] == "")
    ensures NonEmpty(m[k]) != Dedup(RenameAll(m, NonEmpty(k)))
  {
    DedupSingle(m[k]);
    assert k != "" ==> RenameAll(m, NonEmpty(k)) == [m[k]];
  }

  lemma BreaksSourceImage(srcMap: map<string, string>, sinkMap: map<string, string>)
    requires !KeepsBlank(srcMap)
    ensures exists wf: Workflow :: !CarriesRefs(wf, srcMap, sinkMap)
  {
    var k :| k in srcMap && (k == "") != (srcMap[k] == "");
    var n := Node("n", "source", k, map[]);
    OneNodeImage(n, srcMap, srcMap, sinkMap);
    BlankChangesCount(srcMap, k);
    assert !CarriesRefs(OneNode(n), srcMap, sinkMap);
  }

  lemma BreaksSinkImage(srcMap: map<string, string>, sinkMap: map<string, string>)
    requires !KeepsBlank(sinkMap)
    ensures exists wf: Workflow :: !CarriesRefs(wf, srcMap, sinkMap)
  {
    var k :| k in sinkMap && (k == "") != (sinkMap[k] == "");
    var n := Node("n", "sink", k, map[]);
    OneNodeImage(n, sinkMap, srcMap, sinkMap);
    BlankChangesCount(sinkMap, k);
    assert !CarriesRefs(OneNode(n), srcMap, sinkMap);
  }

  // --------------------------------------------------------- nothing else moves

  /** n with everything a rewrite may touch blanked out. */
  function NodeSkeleton(n: Node): Node {
    n.(refID := if n.typ == "source" || n.typ == "sink" then "" else n.refID,
       config := map k | k in n.config :: if k in SOURCE_KEYS && n.config[k].Text? then Text("") else n.config[k])
  }

  function Skeleton(wf: Workflow): Workflow {
    wf.(nodes := seq(|wf.nodes|, i requires 0 <= i < |wf.nodes| => NodeSkeleton(wf.nodes[i])))
  }

  /** Rewriting changes references and nothing else. */
  lemma RewriteKeepsSkeleton(wf: Workflow, srcMap: map<string, string>, sinkMap: map<string, string>)
    ensures Skeleton(Rewrite(wf, srcMap, sinkMap)) == Skeleton(wf)
  {
    var out := Rewrite(wf, srcMap, sinkMap);
    forall i | 0 <= i < |wf.nodes|
      ensures NodeSkeleton(out.nodes[i]) == NodeSkeleton(wf.nodes[i])
    {
      assert NodeSkeleton(out.nodes[i]).config == NodeSkeleton(wf.nodes[i]).config;
    }
  }

  // ---------------------------------------------------------------- round trip

  /** inv undoes m: m is injective and inv is its inverse. */
  predicate InverseOf(inv: map<string, string>, m: map<string, string>) {
    && (forall k :: k in m ==> m[k] in inv && inv[m[k]] == k)
    && (forall v :: v in inv ==> inv[v] in m && m[inv[v]] == v)
  }

  predicate Covers(wf: Workflow, srcMap: map<string, string>, sinkMap: map<string, string>) {
    && (forall x :: x in Sources(wf) ==> x in srcMap)
    && (forall x :: x in Sinks(wf) ==> x in sinkMap)
  }

  predicate RoundTrips(wf: Workflow, srcMap: map<string, string>, sinkMap: map<string, string>,
                       srcInv: map<string, string>, sinkInv: map<string, string>) {
    Rewrite(Rewrite(wf, srcMap, sinkMap), srcInv, sinkInv) == wf
  }

  /** A blank reference, which m need not cover, survives m and then inv. */
  predicate BlankReturns(m: map<string, string>) {
    "" in m || forall k :: k in m ==> m[k] != ""
  }

  lemma RenameBack(m: map<string, string>, inv: map<string, string>, x: string)
    requires InverseOf(inv, m) && BlankReturns(m)
    requires x in m || x == ""
    ensures Rename(inv, Rename(m, x)) == x
  {
  }

  lemma NodeRefsCovered(wf: Workflow, i: nat, srcMap: map<string, string>, sinkMap: map<string, string>)
    requires Covers(wf, srcMap, sinkMap) && i < |wf.nodes|
    ensures forall x :: x in NodeSources(wf.nodes[i]) ==> x in srcMap
    ensures forall x :: x in NodeSinks(wf.nodes[i]) ==> x in sinkMap
  {
    NodeRefsAreRefs(wf.nodes, i);
  }

  lemma RewriteNodeBack(n: Node, srcMap: map<string, string>, sinkMap: map<string, string>,
                        srcInv: map<string, string>, sinkInv: map<string, string>)
    requires InverseOf(srcInv, srcMap) && InverseOf(sinkInv, sinkMap)
    requires BlankReturns(srcMap) && BlankReturns(sinkMap)
    requires forall x :: x in NodeSources(n) ==> x in srcMap
    requires forall x :: x in NodeSinks(n) ==> x in sinkMap
    ensures RewriteNode(RewriteNode(n, srcMap, sinkMap), srcInv, sinkInv) == n
  {
    var back := RewriteNode(RewriteNode(n, srcMap, sinkMap), srcInv, sinkInv);
    if n.typ == "source" {
      assert n.refID != "" ==> n.refID == NodeSources(n)[0];
      RenameBack(srcMap, srcInv, n.refID);
    } else if n.typ == "sink" {
      assert n.refID != "" ==> n.refID == NodeSinks(n)[0];
      RenameBack(sinkMap, sinkInv, n.refID);
    }
    forall k | k in n.config
      ensures back.config[k] == n.config[k]
    {
      if k in SOURCE_KEYS && n.config[k].Text? {
        var x := n.config[k].text;
        assert x != "" ==> x in ConfigRef(n, k);
        assert x != "" ==> x in NodeSources(n);
        RenameBack(srcMap, srcInv, x);
      }
    }
    assert back.config == n.config;
  }

  lemma RewriteBack(wf: Workflow, srcMap: map<string, string>, sinkMap: map<string, string>,
                    srcInv: map<string, string>, sinkInv: map<string, string>)
    requires InverseOf(srcInv, srcMap) && InverseOf(sinkInv, sinkMap)
    requires BlankReturns(srcMap) && BlankReturns(sinkMap)
    requires Covers(wf, srcMap, sinkMap)
    ensures RoundTrips(wf, srcMap, sinkMap, srcInv, sinkInv)
  {
    var back := Rewrite(Rewrite(wf, srcMap, sinkMap), srcInv, sinkInv);
    forall i | 0 <= i < |wf.nodes|
      ensures back.nodes[i] == wf.nodes[i]
    {
      NodeRefsCovered(wf, i, srcMap, sinkMap);
      RewriteNodeBack(wf.nodes[i], srcMap, sinkMap, srcInv, sinkInv);
    }
    assert back.nodes == wf.nodes;
  }

  lemma BreaksRoundTrip(n: Node, m: map<string, string>, srcMap: map<string, string>, sinkMap: map<string, string>,
                        srcInv: map<string, string>, sinkInv: map<string, string>)
    requires InverseOf(srcInv, srcMap) && InverseOf(sinkInv, sinkMap)
    requires n == Node("n", n.typ, "", map[])
    requires (n.typ == "source" && m == srcMap) || (n.typ == "sink" && m == sinkMap)
    requires !BlankReturns(m)
    ensures Covers(OneNode(n), srcMap, sinkMap)
    ensures !RoundTrips(OneNode(n), srcMap, sinkMap, srcInv, sinkInv)
  {
    assert [] + [n] == [n];
    RawSnoc([], n);
    assert RawSources([n]) == [] && RawSinks([n]) == [];
    var out := Rewrite(OneNode(n), srcMap, sinkMap);
    assert out.nodes == [RewriteNode(n, srcMap, sinkMap)];
    var k :| k in m && m[k] == "";
    var back := Rewrite(out, srcInv, sinkInv);
    assert back.nodes[0].refID == k;
    assert OneNode(n).nodes[0].refID == "";
  }

  /** Rewriting back with the inverse maps restores every workflow whose references
      the maps cover exactly when a blank reference returns to itself. */
  lemma RewriteRoundTripIff(srcMap: map<string, string>, sinkMap: map<string, string>,
                            srcInv: map<string, string>, sinkInv: map<string, string>)
    requires InverseOf(srcInv, srcMap) && InverseOf(sinkInv, sinkMap)
    ensures (forall wf: Workflow :: Covers(wf, srcMap, sinkMap) ==> RoundTrips(wf, srcMap, sinkMap, srcInv, sinkInv))
            <==> BlankReturns(srcMap) && BlankReturns(sinkMap)
  {
    if BlankReturns(srcMap) && BlankReturns(sinkMap) {
      forall wf: Workflow | Covers(wf, srcMap, sinkMap)
        ensures RoundTrips(wf, srcMap, sinkMap, srcInv, sinkInv)
      {
        RewriteBack(wf, srcMap, sinkMap, srcInv, sinkInv);
      }
    } else if !BlankReturns(srcMap) {
      BreaksRoundTrip(Node("n", "source", "", map[]), srcMap, srcMap, sinkMap, srcInv, sinkInv);
    } else {
      BreaksRoundTrip(Node("n", "sink", "", map[]), sinkMap, srcMap, sinkMap, srcInv, sinkInv);
    }
  }
}
