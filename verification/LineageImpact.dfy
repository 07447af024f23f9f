/** What is downstream of an asset or a workflow (internal/lineage/impact.go): a
    breadth-first walk that remembers how each node was first reached, and the list of
    paths rebuilt from it. */
module LineageImpact {
  import opened Sequences
  import opened LineageGraph

  datatype Visit = Visit(parent: string, relation: string, depth: nat)

  // ------------------------------------------------------- what a walk must have done

  /** all[i] is the first in `all` with an edge to x. */
  ghost predicate FirstTo(edges: seq<Edge>, all: seq<string>, i: nat, x: string) {
    i < |all| && Leads(edges, all[i], x) && forall h :: 0 <= h < i ==> !Leads(edges, all[h], x)
  }

  /** `relation` is the least one that leads from x to y. */
  ghost predicate LeastRelation(edges: seq<Edge>, x: string, y: string, relation: string) {
    LeadsBy(edges, x, y, relation) && forall r :: LeadsBy(edges, x, y, r) ==> !Below(r, relation)
  }

  /** all[j] was reached from all[par[j]], the first listed node that leads to it. */
  ghost predicate ReachedAt(edges: seq<Edge>, seen: map<string, Visit>, all: seq<string>, par: seq<nat>, j: nat) {
    j < |all| == |par| && par[j] < j && FirstTo(edges, all, par[j], all[j]) &&
    all[par[j]] in seen && all[j] in seen &&
    seen[all[j]].parent == all[par[j]] &&
    seen[all[j]].depth == seen[all[par[j]]].depth + 1 &&
    LeastRelation(edges, all[par[j]], all[j], seen[all[j]].relation)
  }

  /** Listed by the parent's place, and by id among those with one parent. */
  ghost predicate ListedBefore(all: seq<string>, par: seq<nat>, i: nat, j: nat) {
    i < |all| == |par| && j < |all| && (par[i] < par[j] || (par[i] == par[j] && Below(all[i], all[j])))
  }

  ghost predicate Recorded(edges: seq<Edge>, id: string, seen: map<string, Visit>, all: seq<string>, par: seq<nat>) {
    |all| == |par| && |all| > 0 && all[0] == id && par[0] == 0 &&
    Distinct(all) && (forall x :: x in seen <==> x in all) &&
    seen[id] == Visit("", "", 0) &&
    (forall j :: 1 <= j < |all| ==> ReachedAt(edges, seen, all, par, j)) &&
    (forall i, j :: 1 <= i < j < |all| ==> ListedBefore(all, par, i, j))
  }

  /** What the first k nodes lead to is listed. */
  ghost predicate Followed(edges: seq<Edge>, all: seq<string>, k: nat) {
    forall i, y :: 0 <= i < k && i < |all| && Leads(edges, all[i], y) ==> y in all
  }

  ghost predicate IsWalk(edges: seq<Edge>, id: string, seen: map<string, Visit>, all: seq<string>, par: seq<nat>) {
    Recorded(edges, id, seen, all, par) && Followed(edges, all, |all|)
  }

  /** The walk, by whatever parents. */
  ghost predicate Walked(edges: seq<Edge>, id: string, seen: map<string, Visit>, order: seq<string>) {
    exists par :: IsWalk(edges, id, seen, [id] + order, par)
  }

  // -------------------------------------------------------------------- adjacency

  method SortEdges(es: seq<Edge>) returns (r: seq<Edge>)
    ensures EdgesSorted(r) && multiset(r) == multiset(es)
  {
    r := [];
    for n := 0 to |es|
      invariant EdgesSorted(r) && multiset(r) == multiset(es[..n])
    {
      assert es[..n + 1] == es[..n] + [es[n]];
      r := InsertEdge(r, es[n]);
    }
    assert es[..|es|] == es;
  }

  method InsertEdge(es: seq<Edge>, e: Edge) returns (r: seq<Edge>)
    requires EdgesSorted(es)
    ensures EdgesSorted(r) && multiset(r) == multiset(es) + multiset{e}
  {
    hide EdgeBelow, EdgesSorted;
    var i := |es|;
    while i > 0 && EdgeBelow(e, es[i - 1])
      invariant 0 <= i <= |es|
      invariant forall j :: i <= j < |es| ==> EdgeBelow(e, es[j])
    {
      i := i - 1;
    }
    r := es[..i] + [e] + es[i..];
    assert es == es[..i] + es[i..];
    PlacedAllSorted(es, e, i);
  }

  lemma PlacedAllSorted(es: seq<Edge>, e: Edge, i: nat)
    requires EdgesSorted(es) && i <= |es| && (i > 0 ==> !EdgeBelow(e, es[i - 1]))
    requires forall j :: i <= j < |es| ==> EdgeBelow(e, es[j])
    ensures EdgesSorted(es[..i] + [e] + es[i..])
  {
    hide EdgeBelow;
    var r := es[..i] + [e] + es[i..];
    forall a, b | 0 <= a < b < |r| ensures !EdgeBelow(r[b], r[a]) {
      PlacedSorted(es, e, i, a, b);
    }
  }

  lemma PlacedSorted(es: seq<Edge>, e: Edge, i: nat, a: nat, b: nat)
    requires EdgesSorted(es) && a < b <= |es| && i <= |es|
    requires i > 0 ==> !EdgeBelow(e, es[i - 1])
    requires forall j :: i <= j < |es| ==> EdgeBelow(e, es[j])
    ensures !EdgeBelow((es[..i] + [e] + es[i..])[b], (es[..i] + [e] + es[i..])[a])
  {
    hide EdgeBelow;
    if a == i {
      EdgeAsymmetric(e, es[b - 1]);
    } else if b == i {
      if a < i - 1 { EdgeBelowWeak(es[a], es[i - 1], e); }
    } else {
      assert !EdgeBelow(es[if b < i then b else b - 1], es[if a < i then a else a - 1]);
    }
  }

  lemma EdgeAsymmetric(e: Edge, f: Edge)
    requires EdgeBelow(e, f)
    ensures !EdgeBelow(f, e)
  {
    if Below(e.dst, f.dst) { BelowAsymmetric(e.dst, f.dst); }
    if Below(e.relation, f.relation) { BelowAsymmetric(e.relation, f.relation); }
    if Below(f.dst, e.dst) { BelowAsymmetric(f.dst, e.dst); }
  }

  ghost predicate Holds(edges: seq<Edge>, out: map<string, seq<Edge>>) {
    forall e, k :: k in out ==> (e in out[k] <==> e in edges && e.src == k)
  }

  /** es are the edges that leave x, in walk's order. */
  ghost predicate EdgesOf(edges: seq<Edge>, x: string, es: seq<Edge>) {
    EdgesSorted(es) && forall e :: e in es <==> e in edges && e.src == x
  }

  /** The sorted edges of every node that has any. */
  ghost predicate IsOut(edges: seq<Edge>, out: map<string, seq<Edge>>) {
    Holds(edges, out) && Covers(edges, out) && forall k :: k in out ==> EdgesSorted(out[k])
  }

  ghost predicate Covers(edges: seq<Edge>, out: map<string, seq<Edge>>) {
    forall e :: e in edges ==> e.src in out
  }

  method OutEdges(edges: seq<Edge>) returns (out: map<string, seq<Edge>>)
    ensures IsOut(edges, out)
  {
    out := map[];
    for n := 0 to |edges|
      invariant Holds(edges[..n], out) && Covers(edges[..n], out)
    {
      var e := edges[n];
      assert edges[..n + 1] == edges[..n] + [e];
      out := out[e.src := (if e.src in out then out[e.src] else []) + [e]];
    }
    assert edges[..|edges|] == edges;
    var keys := out.Keys;
    while keys != {}
      invariant keys <= out.Keys
      invariant Holds(edges, out) && Covers(edges, out)
      invariant forall k :: k in out && k !in keys ==> EdgesSorted(out[k])
      decreases keys
    {
      var k :| k in keys;
      var sorted := SortEdges(out[k]);
      forall e ensures e in sorted <==> e in out[k] {
        assert e in sorted <==> e in multiset(sorted);
        assert e in out[k] <==> e in multiset(out[k]);
      }
      out := out[k := sorted];
      keys := keys - {k};
    }
  }

  // -------------------------------------------------------------------- the walk

  /** The nodes reached from all[k] so far are targets of the edges followed. */
  ghost predicate FromThese(all: seq<string>, par: seq<nat>, k: nat, es: seq<Edge>, m: nat) {
    forall j :: 1 <= j < |all| && j < |par| && par[j] == k ==> exists l :: 0 <= l < m && l < |es| && es[l].dst == all[j]
  }

  ghost predicate FromEarlier(par: seq<nat>, k: nat) {
    forall j :: 1 <= j < |par| ==> par[j] <= k
  }

  /** Reaching e.dst from all[k] for the first time keeps the record right. */
  lemma ReachOne(edges: seq<Edge>, id: string, seen: map<string, Visit>, all: seq<string>, par: seq<nat>,
                 k: nat, es: seq<Edge>, m: nat)
    requires Recorded(edges, id, seen, all, par) && Followed(edges, all, k) && FromEarlier(par, k)
    requires k < |all| && m < |es| && es[m].dst !in seen
    requires EdgesOf(edges, all[k], es)
    requires forall l :: 0 <= l < m ==> es[l].dst in all
    requires FromThese(all, par, k, es, m)
    ensures Recorded(edges, id, seen[es[m].dst := Visit(all[k], es[m].relation, seen[all[k]].depth + 1)],
                     all + [es[m].dst], par + [k])
    ensures FromThese(all + [es[m].dst], par + [k], k, es, m + 1)
  {
    var x := es[m].dst;
    var rel := es[m].relation;
    assert es[m] in es;
    assert LeadsBy(edges, all[k], x, rel) && Leads(edges, all[k], x);
    NewFirst(edges, all, k, x);
    NewLeast(edges, all, k, es, m);
    var seen' := seen[x := Visit(all[k], rel, seen[all[k]].depth + 1)];
    var all', par' := all + [x], par + [k];
    forall j | 1 <= j < |all'| ensures ReachedAt(edges, seen', all', par', j) {
      if j < |all| {
        assert ReachedAt(edges, seen, all, par, j);
        assert FirstTo(edges, all', par'[j], all'[j]);
      } else {
        assert all[k] in all;
        assert FirstTo(edges, all', par'[j], all'[j]);
      }
    }
    forall i, j | 1 <= i < j < |all'| ensures ListedBefore(all', par', i, j) {
      if j < |all| {
        assert ListedBefore(all, par, i, j);
      } else {
        if par[i] == k {
          var l :| 0 <= l < m && es[l].dst == all[i];
          assert !EdgeBelow(es[m], es[l]);
          BelowTotal(all[i], x);
        }
      }
    }
    forall y ensures y in seen' <==> y in all' {
    }
    forall j | 1 <= j < |all'| && par'[j] == k
      ensures exists l :: 0 <= l < m + 1 && l < |es| && es[l].dst == all'[j]
    {
      if j < |all| {
        var l :| 0 <= l < m && l < |es| && es[l].dst == all[j];
      } else {
        assert es[m].dst == all'[j];
      }
    }
  }

  lemma NewFirst(edges: seq<Edge>, all: seq<string>, k: nat, x: string)
    requires Followed(edges, all, k) && k < |all| && x !in all && Leads(edges, all[k], x)
    ensures FirstTo(edges, all, k, x)
  {
  }

  lemma NewLeast(edges: seq<Edge>, all: seq<string>, k: nat, es: seq<Edge>, m: nat)
    requires k < |all| && m < |es| && es[m].dst !in all
    requires EdgesOf(edges, all[k], es)
    requires forall l :: 0 <= l < m ==> es[l].dst in all
    ensures LeastRelation(edges, all[k], es[m].dst, es[m].relation)
  {
    assert es[m] in es;
    forall r | LeadsBy(edges, all[k], es[m].dst, r) ensures !Below(r, es[m].relation) {
      var e :| e in edges && e.src == all[k] && e.dst == es[m].dst && e.relation == r;
      assert e in es;
      var l :| 0 <= l < |es| && es[l] == e;
      if l == m {
        if Below(r, r) { BelowAsymmetric(r, r); }
      } else {
        assert !EdgeBelow(es[l], es[m]);
      }
    }
  }

  /** The outer loop: the first k listed nodes are done, the rest wait in the queue. */
  ghost predicate Walking(edges: seq<Edge>, id: string, seen: map<string, Visit>, all: seq<string>, par: seq<nat>,
                          k: nat, queue: seq<string>) {
    Recorded(edges, id, seen, all, par) && k <= |all| && queue == all[k..] && Followed(edges, all, k) &&
    (forall j :: 1 <= j < |par| ==> par[j] < k) &&
    (forall x :: x in all ==> x in Ends(edges) + {id})
  }

  /** The inner loop: m of the edges of all[k] are followed. */
  ghost predicate Following(edges: seq<Edge>, id: string, seen: map<string, Visit>, all: seq<string>, par: seq<nat>,
                            k: nat, queue: seq<string>, es: seq<Edge>, m: nat) {
    Recorded(edges, id, seen, all, par) && k < |all| && queue == all[k + 1..] && Followed(edges, all, k) &&
    FromEarlier(par, k) && (forall x :: x in all ==> x in Ends(edges) + {id}) &&
    m <= |es| && (forall l :: 0 <= l < m ==> es[l].dst in all) && FromThese(all, par, k, es, m) &&
    EdgesOf(edges, all[k], es)
  }

  lemma FollowNew(edges: seq<Edge>, id: string, seen: map<string, Visit>, all: seq<string>, par: seq<nat>,
                  k: nat, queue: seq<string>, es: seq<Edge>, m: nat)
    requires Following(edges, id, seen, all, par, k, queue, es, m) && m < |es| && es[m].dst !in seen
    ensures all[k] in seen
    ensures Following(edges, id, seen[es[m].dst := Visit(all[k], es[m].relation, seen[all[k]].depth + 1)],
                      all + [es[m].dst], par + [k], k, queue + [es[m].dst], es, m + 1)
  {
    hide Recorded, FromThese, EdgesOf, Followed, Ends;
    ListedIsSeen(edges, id, seen, all, par, k);
    var x := es[m].dst;
    ReachOne(edges, id, seen, all, par, k, es, m);
    FollowedGrows(edges, all, k, x);
    LeadsToEnd(edges, all[k], es, m);
    var all' := all + [x];
    assert all'[k] == all[k] && queue + [x] == all'[k + 1..];
    assert forall l :: 0 <= l < m + 1 ==> es[l].dst in all';
    assert forall y :: y in all' ==> y in Ends(edges) + {id};
  }

  lemma ListedIsSeen(edges: seq<Edge>, id: string, seen: map<string, Visit>, all: seq<string>, par: seq<nat>, k: nat)
    requires Recorded(edges, id, seen, all, par) && k < |all|
    ensures all[k] in seen
  {
    assert all[k] in all;
  }

  lemma LeadsToEnd(edges: seq<Edge>, x: string, es: seq<Edge>, m: nat)
    requires EdgesOf(edges, x, es) && m < |es|
    ensures es[m].dst in Ends(edges)
  {
    assert es[m] in es;
  }

  lemma FollowOld(edges: seq<Edge>, id: string, seen: map<string, Visit>, all: seq<string>, par: seq<nat>,
                  k: nat, queue: seq<string>, es: seq<Edge>, m: nat)
    requires Following(edges, id, seen, all, par, k, queue, es, m) && m < |es| && es[m].dst in seen
    ensures Following(edges, id, seen, all, par, k, queue, es, m + 1)
  {
    MoreFollowed(all, par, k, es, m);
    assert es[m].dst in all;
    hide Recorded, FromThese, EdgesSorted, Followed;
  }

  lemma NodeDone(edges: seq<Edge>, id: string, seen: map<string, Visit>, all: seq<string>, par: seq<nat>,
                 k: nat, queue: seq<string>, es: seq<Edge>)
    requires Following(edges, id, seen, all, par, k, queue, es, |es|)
    ensures Walking(edges, id, seen, all, par, k + 1, queue)
  {
    hide Recorded, FromThese, EdgesSorted;
    OneFollowed(edges, all, k, es);
  }

  lemma NodeTaken(edges: seq<Edge>, id: string, seen: map<string, Visit>, all: seq<string>, par: seq<nat>,
                  k: nat, queue: seq<string>, es: seq<Edge>)
    requires Walking(edges, id, seen, all, par, k, queue) && |queue| > 0
    requires EdgesOf(edges, queue[0], es)
    ensures Following(edges, id, seen, all, par, k, queue[1..], es, 0)
    ensures k < |all| && queue[0] == all[k] && |all| <= |Ends(edges) + {id}|
  {
    DistinctFits(all, Ends(edges) + {id});
    assert |all| == |par|;
    hide Recorded, EdgesSorted, Followed;
  }

  /** walk: every node reachable from id, and how it was first reached. */
  method Walk(edges: seq<Edge>, id: string)
    returns (seen: map<string, Visit>, order: seq<string>)
    ensures Walked(edges, id, seen, order)
  {
    hide Walking, Following, EdgesOf, IsOut, IsWalk;
    var out := OutEdges(edges);
    seen := map[id := Visit("", "", 0)];
    var queue := [id];
    order := [];
    ghost var par: seq<nat> := [0];
    ghost var k := 0;
    ghost var all := [id];
    WalkStarts(edges, id);
    while |queue| > 0
      invariant all == [id] + order && k <= |all|
      invariant Walking(edges, id, seen, all, par, k, queue)
      decreases |Ends(edges) + {id}| - k
    {
      var cur := queue[0];
      var es := if cur in out then out[cur] else [];
      SortedOut(edges, out, cur, es);
      NodeTaken(edges, id, seen, all, par, k, queue, es);
      queue := queue[1..];
      for m := 0 to |es|
        invariant all == [id] + order && k < |all| && all[k] == cur
        invariant Following(edges, id, seen, all, par, k, queue, es, m)
      {
        var e := es[m];
        if e.dst !in seen {
          FollowNew(edges, id, seen, all, par, k, queue, es, m);
          seen := seen[e.dst := Visit(cur, e.relation, seen[cur].depth + 1)];
          queue := queue + [e.dst];
          order := order + [e.dst];
          all := all + [e.dst];
          par := par + [k];
        } else {
          FollowOld(edges, id, seen, all, par, k, queue, es, m);
        }
      }
      NodeDone(edges, id, seen, all, par, k, queue, es);
      k := k + 1;
    }
    WalkDone(edges, id, seen, all, par, k, queue);
  }

  lemma WalkStarts(edges: seq<Edge>, id: string)
    ensures Walking(edges, id, map[id := Visit("", "", 0)], [id], [0], 0, [id])
  {
  }

  lemma SortedOut(edges: seq<Edge>, out: map<string, seq<Edge>>, cur: string, es: seq<Edge>)
    requires IsOut(edges, out) && es == if cur in out then out[cur] else []
    ensures EdgesOf(edges, cur, es)
  {
  }

  lemma WalkDone(edges: seq<Edge>, id: string, seen: map<string, Visit>, all: seq<string>, par: seq<nat>,
                 k: nat, queue: seq<string>)
    requires Walking(edges, id, seen, all, par, k, queue) && |queue| == 0
    ensures IsWalk(edges, id, seen, all, par)
  {
    hide Recorded;
  }

  function Ends(edges: seq<Edge>): (r: set<string>)
  {
    set e | e in edges :: e.dst
  }

  lemma MoreFollowed(all: seq<string>, par: seq<nat>, k: nat, es: seq<Edge>, m: nat)
    requires FromThese(all, par, k, es, m)
    ensures FromThese(all, par, k, es, m + 1)
  {
    forall j | 1 <= j < |all| && j < |par| && par[j] == k
      ensures exists l :: 0 <= l < m + 1 && l < |es| && es[l].dst == all[j]
    {
      var l :| 0 <= l < m && l < |es| && es[l].dst == all[j];
    }
  }

  lemma FollowedGrows(edges: seq<Edge>, all: seq<string>, k: nat, x: string)
    requires Followed(edges, all, k) && k <= |all|
    ensures Followed(edges, all + [x], k)
  {
  }

  lemma OneFollowed(edges: seq<Edge>, all: seq<string>, k: nat, es: seq<Edge>)
    requires Followed(edges, all, k) && k < |all|
    requires EdgesOf(edges, all[k], es)
    requires forall l :: 0 <= l < |es| ==> es[l].dst in all
    ensures Followed(edges, all, k + 1)
  {
    forall y | Leads(edges, all[k], y) ensures y in all {
      var e :| e in edges && e.src == all[k] && e.dst == y;
      assert e in es;
    }
  }

  lemma DistinctFits(s: seq<string>, bound: set<string>)
    requires Distinct(s) && forall x :: x in s ==> x in bound
    ensures |s| <= |bound|
  {
    if s != [] {
      var last := s[|s| - 1];
      DistinctFits(s[..|s| - 1], bound - {last});
    }
  }
}
