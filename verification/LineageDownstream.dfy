/** Downstream (internal/lineage/impact.go): the list of what breaks if a node changes. */
module LineageDownstream {
  import opened Sequences
  import opened LineageGraph
  import opened LineageImpact
  import opened LineageWalks

  datatype Impacted = Impacted(node: Node, depth: nat, path: seq<string>, relation: string)

  datatype Impact = Impact(root: Node, impacted: seq<Impacted>, workflows: nat, assets: nat)

  datatype Answer = UnknownNode | Found(impact: Impact)

  const NO_NODE := Node("", "", "")

  /** Graph.Node: the first node with the id, or -1. */
  function NodeAt(nodes: seq<Node>, id: string): (i: int)
    ensures -1 <= i < |nodes|
    ensures i >= 0 ==> nodes[i].id == id
    ensures i < 0 ==> forall n :: n in nodes ==> n.id != id
  {
    if nodes == [] then -1 else if nodes[0].id == id then 0 else
      var i := NodeAt(nodes[1..], id);
      assert nodes == [nodes[0]] + nodes[1..];
      if i < 0 then -1 else i + 1
  }

  /** The node the table by id holds: the last with the id, the zero node when there is none. */
  function LastNode(nodes: seq<Node>, id: string): (n: Node)
    ensures (n in nodes && n.id == id) || (n == NO_NODE && forall m :: m in nodes ==> m.id != id)
  {
    if nodes == [] then NO_NODE else
      assert nodes == nodes[..|nodes| - 1] + [nodes[|nodes| - 1]];
      if nodes[|nodes| - 1].id == id then nodes[|nodes| - 1] else LastNode(nodes[..|nodes| - 1], id)
  }

  function WorkflowsIn(items: seq<Impacted>): (n: nat)
    ensures n <= |items|
  {
    if items == [] then 0 else
      WorkflowsIn(items[..|items| - 1]) + if items[|items| - 1].node.kind == KIND_WORKFLOW then 1 else 0
  }

  // ---------------------------------------------------------------- paths as shown

  /** The chain of parents as rebuilt: it stops before a parent with an empty id. */
  ghost function Shown(all: seq<string>, par: seq<nat>, j: nat): seq<string>
    requires Earlier(all, par) && j < |all|
  {
    if j == 0 then [all[0]] else if all[par[j]] == "" then [all[j]] else Shown(all, par, par[j]) + [all[j]]
  }

  ghost predicate EndsWith(s: seq<string>, t: seq<string>) {
    |t| <= |s| && s[|s| - |t|..] == t
  }

  /** The shown path of a node against its real one. */
  lemma {:induction false} ShownIff(all: seq<string>, par: seq<nat>, j: nat)
    requires Earlier(all, par) && j < |all|
    ensures IsShown(Chain(all, par, j), Shown(all, par, j), all[j])
    decreases j
  {
    hide IsShown;
    if j == 0 {
      ShownAlone([], all[0]);
    } else {
      var i := par[j];
      ShownIff(all, par, i);
      if all[i] == "" {
        ChainEnds(all, par, i);
        ShownAlone(Chain(all, par, i), all[j]);
      } else {
        ShownMore(Chain(all, par, i), Shown(all, par, i), all[i], all[j]);
      }
    }
  }

  /** `shown` is the end of `whole`, up to `last`, and all of it exactly when nothing before
      the last is empty. */
  ghost predicate IsShown(whole: seq<string>, shown: seq<string>, last: string) {
    |shown| > 0 && EndsWith(whole, shown) && shown[|shown| - 1] == last &&
    (shown == whole <==> "" !in whole[..|whole| - 1])
  }

  lemma ShownAlone(before: seq<string>, x: string)
    requires before == [] || before[|before| - 1] == ""
    ensures IsShown(before + [x], [x], x)
  {
    var whole := before + [x];
    assert whole[..|whole| - 1] == before;
    if before != [] { assert before[|before| - 1] in before; }
  }

  lemma ShownMore(whole: seq<string>, shown: seq<string>, last: string, x: string)
    requires IsShown(whole, shown, last) && last != ""
    ensures IsShown(whole + [x], shown + [x], x)
  {
    var whole', shown' := whole + [x], shown + [x];
    assert whole'[..|whole|] == whole && shown'[..|shown|] == shown;
    assert whole[|whole| - 1] == whole[|whole| - |shown|..][|shown| - 1] == last;
    assert whole == whole[..|whole| - 1] + [last];
    assert whole'[|whole'| - |shown'|..] == whole[|whole| - |shown|..] + [x];
  }

  lemma ChainEnds(all: seq<string>, par: seq<nat>, j: nat)
    requires Earlier(all, par) && j < |all|
    ensures |Chain(all, par, j)| > 0 && Chain(all, par, j)[|Chain(all, par, j)| - 1] == all[j]
  {
  }

  // ------------------------------------------------------------ what an answer is

  ghost function ItemAt(nodes: seq<Node>, seen: map<string, Visit>, all: seq<string>, par: seq<nat>, j: nat): Impacted
    requires Earlier(all, par) && j < |all| && all[j] in seen
  {
    Impacted(LastNode(nodes, all[j]), seen[all[j]].depth, Shown(all, par, j), seen[all[j]].relation)
  }

  /** The items for the first n nodes reached, in the order they were reached. */
  ghost predicate Lists(nodes: seq<Node>, seen: map<string, Visit>, all: seq<string>, par: seq<nat>,
                        items: seq<Impacted>, n: nat) {
    Earlier(all, par) && n < |all| && |items| == n &&
    forall j :: 1 <= j <= n ==> all[j] in seen && items[j - 1] == ItemAt(nodes, seen, all, par, j)
  }

  ghost predicate AnswerFrom(g: Graph, id: string, seen: map<string, Visit>, all: seq<string>, par: seq<nat>,
                             imp: Impact) {
    NodeAt(g.nodes, id) >= 0 && imp.root == g.nodes[NodeAt(g.nodes, id)] &&
    |all| > 0 && Lists(g.nodes, seen, all, par, imp.impacted, |all| - 1) &&
    imp.workflows == WorkflowsIn(imp.impacted) && imp.workflows + imp.assets == |imp.impacted|
  }

  ghost predicate Answers(g: Graph, id: string, imp: Impact) {
    exists seen, all, par :: IsWalk(g.edges, id, seen, all, par) && AnswerFrom(g, id, seen, all, par, imp)
  }

  // ---------------------------------------------------------------- the stable sort

  function PlaceByDepth(items: seq<Impacted>, x: Impacted): seq<Impacted> {
    if items == [] || items[|items| - 1].depth <= x.depth then items + [x]
    else PlaceByDepth(items[..|items| - 1], x) + [items[|items| - 1]]
  }

  /** A stable sort by depth: each item goes behind those not deeper than it. */
  function SortByDepth(items: seq<Impacted>): seq<Impacted> {
    if items == [] then [] else PlaceByDepth(SortByDepth(items[..|items| - 1]), items[|items| - 1])
  }

  ghost predicate Rising(items: seq<Impacted>) {
    forall i, j :: 0 <= i <= j < |items| ==> items[i].depth <= items[j].depth
  }

  lemma PlacedLast(items: seq<Impacted>, x: Impacted)
    requires items == [] || items[|items| - 1].depth <= x.depth
    ensures PlaceByDepth(items, x) == items + [x]
  {
  }

  lemma RisingFront(items: seq<Impacted>)
    requires Rising(items) && items != []
    ensures Rising(items[..|items| - 1])
    ensures |items| > 1 ==> items[|items| - 2].depth <= items[|items| - 1].depth
  {
    assert |items| > 1 ==> 0 <= |items| - 2 <= |items| - 1 < |items|;
  }

  lemma {:induction false} SortChangesNothing(items: seq<Impacted>)
    requires Rising(items)
    ensures SortByDepth(items) == items
  {
    hide Rising, PlaceByDepth;
    if items != [] {
      var front, last := items[..|items| - 1], items[|items| - 1];
      RisingFront(items);
      SortChangesNothing(front);
      PlacedLast(front, last);
      assert SortByDepth(items) == PlaceByDepth(front, last);
    }
  }

  lemma ListIsRising(g: Graph, id: string, seen: map<string, Visit>, all: seq<string>, par: seq<nat>,
                     items: seq<Impacted>)
    requires IsWalk(g.edges, id, seen, all, par) && Lists(g.nodes, seen, all, par, items, |all| - 1)
    ensures Rising(items)
  {
    hide IsWalk, Shown;
    forall i, j | 0 <= i <= j < |items| ensures items[i].depth <= items[j].depth {
      DepthsRise(g.edges, id, seen, all, par, i + 1, j + 1);
    }
  }

  // -------------------------------------------------------------------- the methods

  ghost predicate IsTable(nodes: seq<Node>, table: map<string, Node>) {
    forall id :: LastNode(nodes, id) == if id in table then table[id] else NO_NODE
  }

  method NodesByID(nodes: seq<Node>) returns (table: map<string, Node>)
    ensures IsTable(nodes, table)
  {
    table := map[];
    for n := 0 to |nodes|
      invariant IsTable(nodes[..n], table)
    {
      forall id ensures LastNode(nodes[..n + 1], id) == if nodes[n].id == id then nodes[n]
          else LastNode(nodes[..n], id) {
        assert nodes[..n + 1][..n] == nodes[..n];
      }
      table := table[nodes[n].id := nodes[n]];
    }
    assert nodes[..|nodes|] == nodes;
  }

  ghost function Backwards(s: seq<string>): seq<string> {
    seq(|s|, i requires 0 <= i < |s| => s[|s| - 1 - i])
  }

  /** `path` runs from all[j] back to all[i], and what is left to show is from all[i] on. */
  ghost predicate ShownTo(all: seq<string>, par: seq<nat>, j: nat, i: nat, path: seq<string>) {
    Earlier(all, par) && i < |all| && j < |all| && |path| > 0 && path[|path| - 1] == all[i] &&
    Backwards(Shown(all, par, j)) == path[..|path| - 1] + Backwards(Shown(all, par, i))
  }

  lemma ShownOneMore(all: seq<string>, par: seq<nat>, j: nat, i: nat, path: seq<string>)
    requires ShownTo(all, par, j, i, path) && 1 <= i
    ensures all[par[i]] != "" ==> ShownTo(all, par, j, par[i], path + [all[par[i]]])
    ensures all[par[i]] == "" ==> path == Backwards(Shown(all, par, j))
  {
    BackStep(all, par, i);
    hide Shown, Backwards;
    var path' := path + [all[par[i]]];
    assert path'[..|path'| - 1] == path == path[..|path| - 1] + [all[i]];
  }

  lemma ShownAll(all: seq<string>, par: seq<nat>, j: nat, path: seq<string>)
    requires ShownTo(all, par, j, 0, path)
    ensures path == Backwards(Shown(all, par, j))
  {
    assert Backwards(Shown(all, par, 0)) == [all[0]];
    assert path == path[..|path| - 1] + [all[0]];
  }

  /** The path rebuilt from the parents, from the node back to the root. */
  method PathBack(edges: seq<Edge>, id: string, seen: map<string, Visit>, ghost all: seq<string>, ghost par: seq<nat>,
                  nid: string, ghost j: nat) returns (path: seq<string>)
    requires IsWalk(edges, id, seen, all, par) && Earlier(all, par) && 1 <= j < |all| && all[j] == nid
    ensures path == Backwards(Shown(all, par, j))
  {
    assert ShownTo(all, par, j, j, [nid]);
    hide IsWalk, Shown, Backwards, ShownTo;
    path := [nid];
    ghost var i := j;
    ParentOf(edges, id, seen, all, par, i);
    var p := seen[nid].parent;
    while p != ""
      invariant 1 <= i < |all| && p == all[par[i]]
      invariant ShownTo(all, par, j, i, path)
      decreases i
    {
      ShownOneMore(all, par, j, i, path);
      path := path + [p];
      i := par[i];
      RootIsFirst(edges, id, seen, all, par, i);
      if p == id {
        ShownAll(all, par, j, path);
        return;
      }
      ParentOf(edges, id, seen, all, par, i);
      p := seen[p].parent;
    }
    ShownOneMore(all, par, j, i, path);
  }

  lemma ParentOf(edges: seq<Edge>, id: string, seen: map<string, Visit>, all: seq<string>, par: seq<nat>, i: nat)
    requires IsWalk(edges, id, seen, all, par) && 1 <= i < |all|
    ensures i < |par| && par[i] < |all| && all[i] in seen && seen[all[i]].parent == all[par[i]]
  {
    assert ReachedAt(edges, seen, all, par, i);
  }

  lemma RootIsFirst(edges: seq<Edge>, id: string, seen: map<string, Visit>, all: seq<string>, par: seq<nat>, i: nat)
    requires IsWalk(edges, id, seen, all, par) && i < |all|
    ensures all[i] == id <==> i == 0
  {
  }

  lemma BackwardsSnoc(s: seq<string>, x: string)
    ensures Backwards(s + [x]) == [x] + Backwards(s)
    ensures Backwards([x]) == [x]
  {
    var l, r := Backwards(s + [x]), [x] + Backwards(s);
    forall i | 0 <= i < |l| ensures l[i] == r[i] {
      assert (s + [x])[|s| - i] == if i == 0 then x else s[|s| - i];
    }
  }

  lemma BackStep(all: seq<string>, par: seq<nat>, i: nat)
    requires Earlier(all, par) && 1 <= i < |all|
    ensures all[par[i]] != "" ==> Backwards(Shown(all, par, i)) == [all[i]] + Backwards(Shown(all, par, par[i]))
    ensures all[par[i]] == "" ==> Backwards(Shown(all, par, i)) == [all[i]]
  {
    hide Backwards;
    BackwardsSnoc(Shown(all, par, par[i]), all[i]);
  }

  method Reverse(s: seq<string>) returns (r: seq<string>)
    ensures r == Backwards(s)
  {
    r := seq(|s|, i requires 0 <= i < |s| => s[|s| - 1 - i]);
  }

  lemma BackwardsTwice(s: seq<string>)
    ensures Backwards(Backwards(s)) == s
  {
  }

  /** Downstream: every node reachable from id, nearest first, with its path. */
  method Downstream(g: Graph, id: string) returns (r: Answer)
    ensures r == UnknownNode <==> forall n :: n in g.nodes ==> n.id != id
    ensures r.Found? ==> Answers(g, id, r.impact)
  {
    hide IsWalk, Shown, Backwards, IsTable, Lists, LastNode, WorkflowsIn, SortByDepth, Rising, Earlier;
    var at := NodeAt(g.nodes, id);
    if at < 0 {
      return UnknownNode;
    }
    assert g.nodes[at] in g.nodes;
    var byID := NodesByID(g.nodes);
    var seen, order := Walk(g.edges, id);
    ghost var all := [id] + order;
    ghost var par :| IsWalk(g.edges, id, seen, all, par);
    WalkEarlier(g.edges, id, seen, all, par);
    var items: seq<Impacted> := [];
    ListsNone(g.nodes, seen, all, par);
    var workflows, assets := 0, 0;
    for n := 0 to |order|
      invariant Lists(g.nodes, seen, all, par, items, n)
      invariant workflows == WorkflowsIn(items) && workflows + assets == n == |items|
    {
      var nid := order[n];
      ParentOf(g.edges, id, seen, all, par, n + 1);
      var back := PathBack(g.edges, id, seen, all, par, nid, n + 1);
      var path := Reverse(back);
      BackwardsTwice(Shown(all, par, n + 1));
      TableAt(g.nodes, byID, nid);
      var node := if nid in byID then byID[nid] else NO_NODE;
      var item := Impacted(node, seen[nid].depth, path, seen[nid].relation);
      ListsMore(g.nodes, seen, all, par, items, n, item);
      items := items + [item];
      if node.kind == KIND_WORKFLOW {
        workflows := workflows + 1;
      } else {
        assets := assets + 1;
      }
    }
    ListIsRising(g, id, seen, all, par, items);
    SortChangesNothing(items);
    r := Found(Impact(g.nodes[at], SortByDepth(items), workflows, assets));
    assert AnswerFrom(g, id, seen, all, par, r.impact);
  }

  lemma ListsNone(nodes: seq<Node>, seen: map<string, Visit>, all: seq<string>, par: seq<nat>)
    requires Earlier(all, par) && |all| > 0
    ensures Lists(nodes, seen, all, par, [], 0) && WorkflowsIn([]) == 0
  {
  }

  lemma ListsMore(nodes: seq<Node>, seen: map<string, Visit>, all: seq<string>, par: seq<nat>,
                  items: seq<Impacted>, n: nat, item: Impacted)
    requires Lists(nodes, seen, all, par, items, n) && n + 1 < |all| && all[n + 1] in seen
    requires item == ItemAt(nodes, seen, all, par, n + 1)
    ensures Lists(nodes, seen, all, par, items + [item], n + 1)
    ensures WorkflowsIn(items + [item]) == WorkflowsIn(items) + if item.node.kind == KIND_WORKFLOW then 1 else 0
  {
    hide ItemAt;
    assert (items + [item])[..n] == items;
  }

  lemma TableAt(nodes: seq<Node>, table: map<string, Node>, id: string)
    requires IsTable(nodes, table)
    ensures LastNode(nodes, id) == if id in table then table[id] else NO_NODE
  {
  }

  // ------------------------------------------------------------------ what it promises

  /** The node an item is about: the end of its path. */
  function Target(item: Impacted): string {
    if item.path == [] then "" else item.path[|item.path| - 1]
  }

  /** `path` is a shortest path to the item's node, it ends in the stated relation, and it
      is what the item shows exactly when no node before the last has an empty id. */
  ghost predicate ReachedBy(edges: seq<Edge>, id: string, item: Impacted, path: seq<string>) {
    PathTo(edges, id, Target(item), path) && |path| == item.depth + 1 && item.depth > 0 &&
    LeadsBy(edges, path[|path| - 2], Target(item), item.relation) &&
    EndsWith(path, item.path) && (item.path == path <==> "" !in path[..|path| - 1])
  }

  ghost predicate HasPath(edges: seq<Edge>, id: string, item: Impacted) {
    exists path :: ReachedBy(edges, id, item, path)
  }

  ghost predicate Nearest(edges: seq<Edge>, id: string, item: Impacted) {
    forall path :: PathTo(edges, id, Target(item), path) ==> item.depth + 1 <= |path|
  }

  ghost predicate Mentions(items: seq<Impacted>, x: string) {
    exists k :: 0 <= k < |items| && Target(items[k]) == x
  }

  ghost predicate ExactImpact(g: Graph, id: string, imp: Impact) {
    (forall x :: Mentions(imp.impacted, x) <==> x != id && Reachable(g.edges, id, x)) &&
    (forall i, j :: 0 <= i < j < |imp.impacted| ==> Target(imp.impacted[i]) != Target(imp.impacted[j])) &&
    (forall k :: 0 <= k < |imp.impacted| ==> Nearest(g.edges, id, imp.impacted[k])) &&
    (forall k :: 0 <= k < |imp.impacted| ==> HasPath(g.edges, id, imp.impacted[k])) &&
    (forall k :: 0 <= k < |imp.impacted| ==> imp.impacted[k].node == LastNode(g.nodes, Target(imp.impacted[k]))) &&
    Rising(imp.impacted) && imp.workflows == WorkflowsIn(imp.impacted) &&
    imp.workflows + imp.assets == |imp.impacted|
  }

  lemma ExactItem(g: Graph, id: string, imp: Impact, k: nat)
    requires ExactImpact(g, id, imp) && k < |imp.impacted|
    ensures Nearest(g.edges, id, imp.impacted[k])
    ensures HasPath(g.edges, id, imp.impacted[k])
  {
    hide Nearest, ReachedBy, Rising, Reachable, Mentions;
  }

  lemma ItemReached(edges: seq<Edge>, nodes: seq<Node>, id: string, seen: map<string, Visit>, all: seq<string>,
                    par: seq<nat>, j: nat)
    requires IsWalk(edges, id, seen, all, par) && Earlier(all, par) && 1 <= j < |all| && all[j] in seen
    ensures Target(ItemAt(nodes, seen, all, par, j)) == all[j]
    ensures ReachedBy(edges, id, ItemAt(nodes, seen, all, par, j), Chain(all, par, j))
  {
    hide IsWalk, EndsWith, IsPath, Leads, LeadsBy;
    ChainIsPath(edges, id, seen, all, par, j);
    ShownIff(all, par, j);
    StepOf(edges, id, seen, all, par, j);
    ChainEnds(all, par, par[j]);
    var c := Chain(all, par, j);
    assert c == Chain(all, par, par[j]) + [all[j]];
    assert c[|c| - 2] == all[par[j]];
  }

  lemma StepOf(edges: seq<Edge>, id: string, seen: map<string, Visit>, all: seq<string>, par: seq<nat>, j: nat)
    requires IsWalk(edges, id, seen, all, par) && 1 <= j < |all|
    ensures j < |par| && par[j] < |all| && all[j] in seen && seen[all[j]].depth > 0
    ensures LeadsBy(edges, all[par[j]], all[j], seen[all[j]].relation)
  {
    assert ReachedAt(edges, seen, all, par, j);
  }

  lemma ItemNearest(edges: seq<Edge>, id: string, seen: map<string, Visit>, all: seq<string>, par: seq<nat>,
                    item: Impacted)
    requires IsWalk(edges, id, seen, all, par) && Target(item) in seen && item.depth == seen[Target(item)].depth
    ensures Nearest(edges, id, item)
  {
    hide IsWalk, Leads;
    forall path | PathTo(edges, id, Target(item), path) ensures item.depth + 1 <= |path| {
      NoShorterPath(edges, id, seen, all, par, path);
    }
  }

  lemma ListedIffReachable(edges: seq<Edge>, id: string, seen: map<string, Visit>, all: seq<string>, par: seq<nat>,
                           x: string)
    requires IsWalk(edges, id, seen, all, par)
    ensures Reachable(edges, id, x) <==> x in all
  {
    WalkEarlier(edges, id, seen, all, par);
    if x in all {
      var j :| 0 <= j < |all| && all[j] == x;
      ChainIsPath(edges, id, seen, all, par, j);
    }
    if Reachable(edges, id, x) {
      var path :| PathTo(edges, id, x, path);
      NoShorterPath(edges, id, seen, all, par, path);
    }
  }

  lemma AnswerTargets(g: Graph, id: string, seen: map<string, Visit>, all: seq<string>, par: seq<nat>, imp: Impact,
                      k: nat)
    requires IsWalk(g.edges, id, seen, all, par) && AnswerFrom(g, id, seen, all, par, imp) && k < |imp.impacted|
    ensures k + 1 < |all| && Target(imp.impacted[k]) == all[k + 1]
    ensures HasPath(g.edges, id, imp.impacted[k])
    ensures Nearest(g.edges, id, imp.impacted[k])
    ensures imp.impacted[k].node == LastNode(g.nodes, all[k + 1])
  {
    hide IsWalk, Shown, ReachedBy, Nearest;
    assert imp.impacted[k + 1 - 1] == ItemAt(g.nodes, seen, all, par, k + 1);
    ItemReached(g.edges, g.nodes, id, seen, all, par, k + 1);
    ItemNearest(g.edges, id, seen, all, par, imp.impacted[k]);
  }

  /** Downstream lists exactly what is reachable, each once, nearest first, at its shortest
      distance and with a real path. */
  lemma DownstreamExact(g: Graph, id: string, imp: Impact)
    requires Answers(g, id, imp)
    ensures ExactImpact(g, id, imp)
  {
    hide IsWalk, ItemAt, HasPath, Nearest, Reachable, Rising;
    var seen, all, par :| IsWalk(g.edges, id, seen, all, par) && AnswerFrom(g, id, seen, all, par, imp);
    var items := imp.impacted;
    forall k | 0 <= k < |items|
      ensures Target(items[k]) == all[k + 1] && Nearest(g.edges, id, items[k])
      ensures HasPath(g.edges, id, items[k])
      ensures items[k].node == LastNode(g.nodes, Target(items[k]))
    {
      AnswerTargets(g, id, seen, all, par, imp, k);
    }
    ListIsRising(g, id, seen, all, par, items);
    WalkIsDistinct(g.edges, id, seen, all, par);
    forall i, j | 0 <= i < j < |items| ensures Target(items[i]) != Target(items[j]) {
      assert all[i + 1] != all[j + 1];
    }
    forall x ensures Mentions(items, x) <==> x != id && Reachable(g.edges, id, x) {
      ListedIffReachable(g.edges, id, seen, all, par, x);
      if x in all && x != id {
        var j :| 0 <= j < |all| && all[j] == x;
        assert Target(items[j - 1]) == x;
      }
      if Mentions(items, x) {
        var k :| 0 <= k < |items| && Target(items[k]) == x;
        assert all[0] != all[k + 1] && all[k + 1] in all;
      }
    }
  }

  lemma WalkIsDistinct(edges: seq<Edge>, id: string, seen: map<string, Visit>, all: seq<string>, par: seq<nat>)
    requires IsWalk(edges, id, seen, all, par)
    ensures |all| > 0 && all[0] == id && Distinct(all)
  {
  }

  lemma ListsOne(nodes: seq<Node>, seen: map<string, Visit>, all: seq<string>, par: seq<nat>,
                 items: seq<Impacted>, items': seq<Impacted>, n: nat)
    requires Lists(nodes, seen, all, par, items, n) && Lists(nodes, seen, all, par, items', n)
    ensures items == items'
  {
    hide ItemAt;
    forall k | 0 <= k < n ensures items[k] == items'[k] {
      assert all[k + 1] in seen && items[k + 1 - 1] == ItemAt(nodes, seen, all, par, k + 1);
      assert items'[k + 1 - 1] == ItemAt(nodes, seen, all, par, k + 1);
    }
  }

  /** Reordering the edge list, or repeating an edge, changes no answer. */
  lemma DownstreamStable(g: Graph, h: Graph, id: string, imp: Impact, imp': Impact)
    requires g.nodes == h.nodes && SameEdges(g.edges, h.edges)
    requires Answers(g, id, imp) && Answers(h, id, imp')
    ensures imp == imp'
  {
    hide IsWalk, ItemAt, SameEdges;
    var seen, all, par :| IsWalk(g.edges, id, seen, all, par) && AnswerFrom(g, id, seen, all, par, imp);
    var seen', all', par' :| IsWalk(h.edges, id, seen', all', par') && AnswerFrom(h, id, seen', all', par', imp');
    OneWalk(g.edges, h.edges, id, seen, all, par, seen', all', par');
    assert |imp.impacted| == |imp'.impacted|;
    ListsOne(g.nodes, seen, all, par, imp.impacted, imp'.impacted, |all| - 1);
  }

  ghost predicate NoBlankSource(edges: seq<Edge>) {
    forall e :: e in edges ==> e.src != ""
  }

  lemma NoBlankOnPath(edges: seq<Edge>, path: seq<string>)
    requires IsPath(edges, path) && NoBlankSource(edges)
    ensures "" !in path[..|path| - 1]
  {
    var front := path[..|path| - 1];
    forall i | 0 <= i < |front| ensures front[i] != "" {
      assert Leads(edges, path[i], path[i + 1]);
    }
  }

  /** Where no edge leaves an empty id, every shown path is whole. */
  lemma PathsAreReal(g: Graph, id: string, imp: Impact, k: nat)
    requires Answers(g, id, imp) && NoBlankSource(g.edges) && k < |imp.impacted|
    ensures ReachedBy(g.edges, id, imp.impacted[k], imp.impacted[k].path)
  {
    hide Answers, ExactImpact, Nearest, NoBlankSource, IsPath, LeadsBy, EndsWith;
    DownstreamExact(g, id, imp);
    ExactItem(g, id, imp, k);
    var path :| ReachedBy(g.edges, id, imp.impacted[k], path);
    NoBlankOnPath(g.edges, path);
  }

  const BLANK := Graph([Node("a", "table", ""), Node("", "table", ""), Node("b", "table", "")],
                       [Edge("a", "", "reads", "", ""), Edge("", "b", "reads", "", "")])

  lemma ThroughBlank(path: seq<string>)
    requires PathTo(BLANK.edges, "a", "b", path)
    ensures "" in path[..|path| - 1]
  {
    var n := |path| - 2;
    assert n >= 0;
    assert Leads(BLANK.edges, path[n], path[n + 1]);
    assert path[..|path| - 1][n] == path[n] == "";
  }

  lemma BlankListed(imp: Impact)
    requires Answers(BLANK, "a", imp)
    ensures Mentions(imp.impacted, "b")
  {
    hide Answers, Nearest, Rising;
    DownstreamExact(BLANK, "a", imp);
    var path := ["a", "", "b"];
    assert BLANK.edges[0] in BLANK.edges && BLANK.edges[1] in BLANK.edges;
    assert Leads(BLANK.edges, path[0], path[1]) && Leads(BLANK.edges, path[1], path[2]);
    assert PathTo(BLANK.edges, "a", "b", path);
  }

  /** A node with an empty id cuts the paths through it short: b is listed, and what is shown
      for it does not start at a. */
  lemma BlankCutsPath(imp: Impact)
    requires Answers(BLANK, "a", imp)
    ensures exists k :: 0 <= k < |imp.impacted| && Target(imp.impacted[k]) == "b" &&
                        !PathTo(BLANK.edges, "a", "b", imp.impacted[k].path)
  {
    BlankListed(imp);
    var k :| 0 <= k < |imp.impacted| && Target(imp.impacted[k]) == "b";
    BlankCutsItem(imp, k);
  }

  lemma BlankCutsItem(imp: Impact, k: nat)
    requires Answers(BLANK, "a", imp) && k < |imp.impacted| && Target(imp.impacted[k]) == "b"
    ensures !PathTo(BLANK.edges, "a", "b", imp.impacted[k].path)
  {
    hide Answers, ExactImpact, IsPath, LeadsBy, EndsWith, Nearest;
    DownstreamExact(BLANK, "a", imp);
    ExactItem(BLANK, "a", imp, k);
    var path :| ReachedBy(BLANK.edges, "a", imp.impacted[k], path);
    ThroughBlank(path);
    NotWhole(imp.impacted[k], path);
  }

  lemma NotWhole(item: Impacted, path: seq<string>)
    requires ReachedBy(BLANK.edges, "a", item, path) && Target(item) == "b" && "" in path[..|path| - 1]
    ensures !PathTo(BLANK.edges, "a", "b", item.path)
  {
    if PathTo(BLANK.edges, "a", "b", item.path) { ThroughBlankOnce(item.path, path); }
  }

  /** The only path from a to b is the one through the node with the empty id. */
  lemma ThroughBlankOnce(p: seq<string>, q: seq<string>)
    requires PathTo(BLANK.edges, "a", "b", p) && PathTo(BLANK.edges, "a", "b", q)
    ensures p == q
  {
    OnlyPath(p);
    OnlyPath(q);
  }

  lemma OnlyPath(p: seq<string>)
    requires PathTo(BLANK.edges, "a", "b", p)
    ensures p == ["a", "", "b"]
  {
    assert |p| > 1 && Leads(BLANK.edges, p[0], p[1]);
    assert |p| > 2 && Leads(BLANK.edges, p[1], p[2]);
    assert |p| > 3 ==> Leads(BLANK.edges, p[2], p[3]);
  }
}
