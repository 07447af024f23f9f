/** The lineage graph: data assets and workflows, and the reads and writes between them
    (internal/lineage/model.go), with paths and the string order its sorts use. */
module LineageGraph {

  const KIND_WORKFLOW := "workflow"

  /** `details` stands for the label, system, locator, vhost and the rest a reader is shown. */
  datatype Node = Node(id: string, kind: string, details: string)

  datatype Edge = Edge(src: string, dst: string, relation: string, workflowID: string, nodeID: string)

  datatype Graph = Graph(nodes: seq<Node>, edges: seq<Edge>)

  ghost predicate Leads(edges: seq<Edge>, x: string, y: string) {
    exists e :: e in edges && e.src == x && e.dst == y
  }

  ghost predicate LeadsBy(edges: seq<Edge>, x: string, y: string, relation: string) {
    exists e :: e in edges && e.src == x && e.dst == y && e.relation == relation
  }

  ghost predicate IsPath(edges: seq<Edge>, path: seq<string>) {
    |path| > 0 && forall i :: 0 <= i < |path| - 1 ==> Leads(edges, path[i], path[i + 1])
  }

  ghost predicate PathTo(edges: seq<Edge>, x: string, y: string, path: seq<string>) {
    IsPath(edges, path) && path[0] == x && path[|path| - 1] == y
  }

  ghost predicate Reachable(edges: seq<Edge>, x: string, y: string) {
    exists path :: PathTo(edges, x, y, path)
  }

  /** The two edge lists hold the same reads and writes, in whatever order and number. */
  ghost predicate SameEdges(es: seq<Edge>, fs: seq<Edge>) {
    forall x, y, r :: LeadsBy(es, x, y, r) <==> LeadsBy(fs, x, y, r)
  }

  lemma LeadsByLeads(edges: seq<Edge>, x: string, y: string)
    ensures Leads(edges, x, y) <==> exists r :: LeadsBy(edges, x, y, r)
  {
    if Leads(edges, x, y) {
      var e :| e in edges && e.src == x && e.dst == y;
      assert LeadsBy(edges, x, y, e.relation);
    }
  }

  lemma SameEdgesLead(es: seq<Edge>, fs: seq<Edge>, x: string, y: string)
    requires SameEdges(es, fs)
    ensures Leads(es, x, y) <==> Leads(fs, x, y)
  {
    LeadsByLeads(es, x, y);
    LeadsByLeads(fs, x, y);
  }

  // ------------------------------------------------------------------ string order

  /** a sorts strictly before b: at the first difference, a prefix before what it begins. */
  predicate Below(a: string, b: string) {
    b != [] && (a == [] || a[0] < b[0] || (a[0] == b[0] && Below(a[1..], b[1..])))
  }

  lemma {:induction false} BelowTotal(a: string, b: string)
    ensures Below(a, b) || a == b || Below(b, a)
  {
    if a != [] && b != [] && a[0] == b[0] {
      BelowTotal(a[1..], b[1..]);
      assert a == [a[0]] + a[1..] && b == [b[0]] + b[1..];
    }
  }

  lemma {:induction false} BelowAsymmetric(a: string, b: string)
    requires Below(a, b)
    ensures !Below(b, a) && a != b
  {
    if a != [] && a[0] == b[0] {
      BelowAsymmetric(a[1..], b[1..]);
    }
  }

  lemma {:induction false} BelowTransitive(a: string, b: string, c: string)
    requires Below(a, b) && Below(b, c)
    ensures Below(a, c)
  {
    if a != [] && a[0] == b[0] == c[0] {
      BelowTransitive(a[1..], b[1..], c[1..]);
    }
  }

  /** The order walk follows edges in: by target, then by relation. */
  predicate EdgeBelow(e: Edge, f: Edge) {
    Below(e.dst, f.dst) || (e.dst == f.dst && Below(e.relation, f.relation))
  }

  ghost predicate EdgesSorted(es: seq<Edge>) {
    forall i, j :: 0 <= i < j < |es| ==> !EdgeBelow(es[j], es[i])
  }

  lemma EdgeBelowWeak(e: Edge, f: Edge, g: Edge)
    requires !EdgeBelow(f, e) && !EdgeBelow(g, f)
    ensures !EdgeBelow(g, e)
  {
    BelowTotal(e.dst, f.dst);
    BelowTotal(f.dst, g.dst);
    BelowTotal(e.relation, f.relation);
    BelowTotal(f.relation, g.relation);
    if EdgeBelow(g, e) {
      if Below(g.dst, e.dst) {
        if Below(e.dst, f.dst) { BelowTransitive(g.dst, e.dst, f.dst); }
      } else if Below(e.dst, f.dst) {
        BelowAsymmetric(e.dst, f.dst);
      } else if Below(e.relation, f.relation) {
        BelowTransitive(g.relation, e.relation, f.relation);
      }
    }
  }
}
