/** What a breadth-first walk of the lineage graph says: shortest distances, real paths,
    and one answer whatever the order of the edges. */
module LineageWalks {
  import opened Sequences
  import opened LineageGraph
  import opened LineageImpact

  /** A node's depth never exceeds that of a later one. */
  lemma {:induction false} DepthsRise(edges: seq<Edge>, id: string, seen: map<string, Visit>, all: seq<string>,
                                      par: seq<nat>,
                   i: nat, j: nat)
    requires IsWalk(edges, id, seen, all, par) && i <= j < |all|
    ensures all[i] in seen && all[j] in seen && seen[all[i]].depth <= seen[all[j]].depth
    decreases j
  {
    hide Followed, FirstTo, LeastRelation, Distinct;
    assert all[i] in all && all[j] in all;
    if 0 < i < j {
      assert ReachedAt(edges, seen, all, par, i) && ReachedAt(edges, seen, all, par, j);
      assert ListedBefore(all, par, i, j);
      DepthsRise(edges, id, seen, all, par, par[i], par[j]);
    }
  }

  /** Nothing reaches a node in fewer steps than its depth, and nothing reachable is missed. */
  lemma {:induction false} NoShorterPath(edges: seq<Edge>, id: string, seen: map<string, Visit>, all: seq<string>,
                                         par: seq<nat>,
                      path: seq<string>)
    requires IsWalk(edges, id, seen, all, par) && IsPath(edges, path) && path[0] == id
    ensures path[|path| - 1] in seen && seen[path[|path| - 1]].depth < |path|
    decreases |path|
  {
    if |path| == 1 {
      assert path[0] == all[0];
    } else {
      var x, y := path[|path| - 2], path[|path| - 1];
      var shorter := path[..|path| - 1];
      assert shorter[|shorter| - 1] == x;
      NoShorterPath(edges, id, seen, all, par, shorter);
      assert Leads(edges, path[|path| - 2], path[|path| - 2 + 1]);
      OneStepDeeper(edges, id, seen, all, par, x, y);
    }
  }

  lemma OneStepDeeper(edges: seq<Edge>, id: string, seen: map<string, Visit>, all: seq<string>, par: seq<nat>,
                      x: string, y: string)
    requires IsWalk(edges, id, seen, all, par) && x in seen && Leads(edges, x, y)
    ensures y in seen && seen[y].depth <= seen[x].depth + 1
  {
    var i :| 0 <= i < |all| && all[i] == x;
    assert y in all;
    var j :| 0 <= j < |all| && all[j] == y;
    if j > 0 {
      assert ReachedAt(edges, seen, all, par, j);
      assert par[j] <= i;
      DepthsRise(edges, id, seen, all, par, par[j], i);
    }
  }

  /** The chain of parents of all[j], from the root. */
  ghost function Chain(all: seq<string>, par: seq<nat>, j: nat): seq<string>
    requires j < |all| == |par| && forall i :: 1 <= i < |all| ==> par[i] < i
  {
    if j == 0 then [all[0]] else Chain(all, par, par[j]) + [all[j]]
  }

  ghost predicate Earlier(all: seq<string>, par: seq<nat>) {
    |all| == |par| && forall i :: 1 <= i < |all| ==> par[i] < i
  }

  lemma WalkEarlier(edges: seq<Edge>, id: string, seen: map<string, Visit>, all: seq<string>, par: seq<nat>)
    requires IsWalk(edges, id, seen, all, par)
    ensures Earlier(all, par)
  {
    hide Followed, FirstTo, LeastRelation, Distinct;
    forall i | 1 <= i < |all| ensures par[i] < i {
      assert ReachedAt(edges, seen, all, par, i);
    }
  }

  lemma {:induction false} ChainIsPath(edges: seq<Edge>, id: string, seen: map<string, Visit>, all: seq<string>,
                                       par: seq<nat>, j: nat)
    requires IsWalk(edges, id, seen, all, par) && Earlier(all, par) && j < |all|
    ensures all[j] in seen && |Chain(all, par, j)| == seen[all[j]].depth + 1
    ensures PathTo(edges, id, all[j], Chain(all, par, j))
    decreases j
  {
    hide Followed, LeastRelation, Distinct, Leads;
    assert all[j] in all;
    if j > 0 {
      assert ReachedAt(edges, seen, all, par, j);
      ChainIsPath(edges, id, seen, all, par, par[j]);
      PathGrows(edges, id, all[par[j]], Chain(all, par, par[j]), all[j]);
    }
  }

  lemma PathGrows(edges: seq<Edge>, x: string, y: string, path: seq<string>, z: string)
    requires PathTo(edges, x, y, path) && Leads(edges, y, z)
    ensures PathTo(edges, x, z, path + [z])
  {
    hide Leads;
    var p := path + [z];
    forall i | 0 <= i < |p| - 1 ensures Leads(edges, p[i], p[i + 1]) {
      if i < |path| - 1 { assert Leads(edges, path[i], path[i + 1]); }
    }
  }

  // -------------------------------------------------------------- one walk per graph

  lemma FirstToSame(es: seq<Edge>, fs: seq<Edge>, all: seq<string>, all': seq<string>, n: nat, i: nat, i': nat,
                    x: string)
    requires SameEdges(es, fs) && n <= |all| && n <= |all'| && all[..n] == all'[..n]
    requires FirstTo(es, all, i, x) && i < n && FirstTo(fs, all', i', x)
    ensures i == i'
  {
    assert all[i] == all[..n][i] == all'[i];
    SameEdgesLead(es, fs, all[i], x);
    if i' < i {
      assert all[i'] == all[..n][i'] == all'[i'];
      SameEdgesLead(es, fs, all[i'], x);
    }
  }

  /** What one walk lists next, the other lists next or later, from the same parent. */
  lemma ListedLater(es: seq<Edge>, fs: seq<Edge>, id: string, seen: map<string, Visit>, all: seq<string>, par: seq<nat>,
                    seen': map<string, Visit>, all': seq<string>, par': seq<nat>, n: nat) returns (j: nat)
    requires SameEdges(es, fs) && IsWalk(es, id, seen, all, par) && IsWalk(fs, id, seen', all', par')
    requires 1 <= n < |all| && n <= |all'| && all[..n] == all'[..n]
    ensures n <= j < |all'| && all'[j] == all[n] && par'[j] == par[n]
  {
    hide SameEdges, LeastRelation;
    var x, i := all[n], par[n];
    assert ReachedAt(es, seen, all, par, n);
    assert all[i] == all[..n][i] == all'[i];
    SameEdgesLead(es, fs, all[i], x);
    assert x in all';
    assert forall h :: 0 <= h < n ==> all'[h] == all[..n][h] == all[h];
    j :| 0 <= j < |all'| && all'[j] == x;
    assert ReachedAt(fs, seen', all', par', j);
    FirstToSame(es, fs, all, all', n, i, par'[j], x);
  }

  lemma ReorderedSame(es: seq<Edge>, fs: seq<Edge>)
    requires multiset(es) == multiset(fs)
    ensures SameEdges(es, fs)
  {
    forall e ensures e in es <==> e in fs {
      assert e in es <==> e in multiset(es);
      assert e in fs <==> e in multiset(fs);
    }
    forall x, y, r ensures LeadsBy(es, x, y, r) <==> LeadsBy(fs, x, y, r) {
    }
  }

  lemma SameEdgesSym(es: seq<Edge>, fs: seq<Edge>)
    requires SameEdges(es, fs)
    ensures SameEdges(fs, es)
  {
    hide LeadsBy;
  }

  lemma NextSame(es: seq<Edge>, fs: seq<Edge>, id: string, seen: map<string, Visit>, all: seq<string>, par: seq<nat>,
                 seen': map<string, Visit>, all': seq<string>, par': seq<nat>, n: nat)
    requires SameEdges(es, fs) && IsWalk(es, id, seen, all, par) && IsWalk(fs, id, seen', all', par')
    requires 1 <= n < |all| && n < |all'| && all[..n] == all'[..n]
    ensures all[n] == all'[n] && par[n] == par'[n]
  {
    hide SameEdges, LeastRelation, ReachedAt, Followed, Leads;
    var j' := ListedLater(es, fs, id, seen, all, par, seen', all', par', n);
    SameEdgesSym(es, fs);
    var j := ListedLater(fs, es, id, seen', all', par', seen, all, par, n);
    if j' > n {
      assert ListedBefore(all', par', n, j');
      if j > n {
        assert ListedBefore(all, par, n, j);
        BelowAsymmetric(all[n], all'[n]);
      }
    }
  }

  lemma {:induction false} PrefixSame(es: seq<Edge>, fs: seq<Edge>, id: string, seen: map<string, Visit>,
                                      all: seq<string>, par: seq<nat>,
                   seen': map<string, Visit>, all': seq<string>, par': seq<nat>, n: nat)
    requires SameEdges(es, fs) && IsWalk(es, id, seen, all, par) && IsWalk(fs, id, seen', all', par')
    requires n <= |all| && n <= |all'|
    ensures n <= |par| && n <= |par'| && all[..n] == all'[..n] && par[..n] == par'[..n]
  {
    hide SameEdges, LeastRelation, ReachedAt, Followed, ListedBefore, Distinct;
    if n > 0 {
      PrefixSame(es, fs, id, seen, all, par, seen', all', par', n - 1);
      if n > 1 { NextSame(es, fs, id, seen, all, par, seen', all', par', n - 1); }
      assert all[..n] == all[..n - 1] + [all[n - 1]] && all'[..n] == all'[..n - 1] + [all'[n - 1]];
      assert par[..n] == par[..n - 1] + [par[n - 1]] && par'[..n] == par'[..n - 1] + [par'[n - 1]];
    }
  }

  lemma NotLonger(es: seq<Edge>, fs: seq<Edge>, id: string, seen: map<string, Visit>, all: seq<string>, par: seq<nat>,
                  seen': map<string, Visit>, all': seq<string>, par': seq<nat>)
    requires SameEdges(es, fs) && IsWalk(es, id, seen, all, par) && IsWalk(fs, id, seen', all', par')
    ensures |all| <= |all'|
  {
    hide SameEdges, LeastRelation, Followed, ListedBefore, Distinct;
    var n := |all'|;
    if n < |all| {
      PrefixSame(es, fs, id, seen, all, par, seen', all', par', n);
      var j := ListedLater(es, fs, id, seen, all, par, seen', all', par', n);
    }
  }

  lemma LeastSame(es: seq<Edge>, fs: seq<Edge>, x: string, y: string, r: string, r': string)
    requires SameEdges(es, fs) && LeastRelation(es, x, y, r) && LeastRelation(fs, x, y, r')
    ensures r == r'
  {
    hide LeadsBy;
    assert LeadsBy(fs, x, y, r) && LeadsBy(es, x, y, r');
    BelowTotal(r, r');
  }

  lemma {:induction false} VisitSame(es: seq<Edge>, fs: seq<Edge>, id: string, seen: map<string, Visit>,
                                     seen': map<string, Visit>,
                  all: seq<string>, par: seq<nat>, j: nat)
    requires SameEdges(es, fs) && IsWalk(es, id, seen, all, par) && IsWalk(fs, id, seen', all, par)
    requires j < |all|
    ensures all[j] in seen && all[j] in seen' && seen[all[j]] == seen'[all[j]]
    decreases j
  {
    hide SameEdges, Followed, ListedBefore, Distinct, LeastRelation, FirstTo;
    assert all[j] in all;
    if j > 0 {
      assert ReachedAt(es, seen, all, par, j) && ReachedAt(fs, seen', all, par, j);
      VisitSame(es, fs, id, seen, seen', all, par, par[j]);
      LeastSame(es, fs, all[par[j]], all[j], seen[all[j]].relation, seen'[all[j]].relation);
    }
  }

  /** The walk is determined by which reads and writes there are: not by their order in
      the edge list, nor by how often one is repeated. */
  lemma OneWalk(es: seq<Edge>, fs: seq<Edge>, id: string, seen: map<string, Visit>, all: seq<string>, par: seq<nat>,
                seen': map<string, Visit>, all': seq<string>, par': seq<nat>)
    requires SameEdges(es, fs) && IsWalk(es, id, seen, all, par) && IsWalk(fs, id, seen', all', par')
    ensures all == all' && par == par' && seen == seen'
  {
    hide SameEdges, Followed, ListedBefore, Distinct, ReachedAt;
    NotLonger(es, fs, id, seen, all, par, seen', all', par');
    SameEdgesSym(es, fs);
    NotLonger(fs, es, id, seen', all', par', seen, all, par);
    PrefixSame(es, fs, id, seen, all, par, seen', all', par', |all|);
    assert all[..|all|] == all && all'[..|all|] == all' && par[..|all|] == par && par'[..|all|] == par';
    forall x | x in seen ensures x in seen' && seen[x] == seen'[x] {
      var j :| 0 <= j < |all| && all[j] == x;
      VisitSame(es, fs, id, seen, seen', all, par, j);
    }
  }
}
