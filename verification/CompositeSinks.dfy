/** The assets a sink writes, through failover and txgroup sinks that name other sinks,
    possibly each other (internal/lineage/assets.go). What a plain sink's type reads off
    its configuration is given with the record as `assets`. */
module CompositeSinks {
  import opened Sequences

  datatype Asset = Asset(kind: string, system: string, locator: string, obj: string, shownAs: string)

  datatype Sink = Sink(id: string, name: string, typ: string, assets: seq<Asset>,
                       members: seq<string>, primary: seq<string>, fallbacks: seq<string>)

  type Sinks = map<string, Sink>

  predicate IsComposite(s: Sink) {
    s.typ == "failover" || s.typ == "txgroup"
  }

  function MemberIDs(s: Sink): seq<string> {
    if s.typ == "failover" then s.primary + s.fallbacks else s.members
  }

  /** Records are indexed by their id. */
  ghost predicate Keyed(sinks: Sinks) {
    forall k :: k in sinks ==> sinks[k].id == k
  }

  ghost predicate IsPart(sinks: Sinks, x: string) {
    x in sinks && IsComposite(sinks[x])
  }

  // ---------------------------------------------------------------- reachable members

  /** Each id is a composite's and names the next as a member; the last is any record. */
  ghost predicate MemberPath(sinks: Sinks, p: seq<string>) {
    |p| > 0 && p[|p| - 1] in sinks &&
    forall i :: 0 <= i < |p| - 1 ==> IsPart(sinks, p[i]) && p[i + 1] in MemberIDs(sinks[p[i]])
  }

  ghost predicate PathFromTo(sinks: Sinks, x: string, y: string, p: seq<string>) {
    MemberPath(sinks, p) && p[0] == x && p[|p| - 1] == y
  }

  ghost predicate Reaches(sinks: Sinks, x: string, y: string) {
    exists p :: PathFromTo(sinks, x, y, p)
  }

  lemma ReachesSelf(sinks: Sinks, x: string)
    requires x in sinks
    ensures Reaches(sinks, x, x)
  {
    assert PathFromTo(sinks, x, x, [x]);
  }

  lemma ReachesThrough(sinks: Sinks, x: string, m: string, y: string)
    requires IsPart(sinks, x) && m in MemberIDs(sinks[x]) && Reaches(sinks, m, y)
    ensures Reaches(sinks, x, y)
  {
    var p :| PathFromTo(sinks, m, y, p);
    var q := [x] + p;
    forall i | 0 <= i < |q| - 1 ensures IsPart(sinks, q[i]) && q[i + 1] in MemberIDs(sinks[q[i]]) {
      if i > 0 { assert q[i] == p[i - 1] && q[i + 1] == p[i - 1 + 1]; }
    }
    assert PathFromTo(sinks, x, y, q);
  }

  /** c's composite members are all in `seen`. */
  ghost predicate Expanded(sinks: Sinks, seen: set<string>, c: string) {
    c in sinks && forall m :: m in MemberIDs(sinks[c]) && IsPart(sinks, m) ==> m in seen
  }

  ghost predicate AllExpanded(sinks: Sinks, seen: set<string>, cs: seq<string>) {
    forall c :: c in cs ==> Expanded(sinks, seen, c)
  }

  /** A set of composites closed under membership holds every composite on a path. */
  lemma {:induction false} ClosedHoldsPath(sinks: Sinks, cs: seq<string>, p: seq<string>, n: nat)
    requires MemberPath(sinks, p) && p[0] in cs && n < |p| && IsPart(sinks, p[n])
    requires AllExpanded(sinks, (set c | c in cs), cs)
    ensures p[n] in cs
  {
    if n > 0 {
      assert IsPart(sinks, p[n - 1]) && p[n - 1 + 1] in MemberIDs(sinks[p[n - 1]]);
      ClosedHoldsPath(sinks, cs, p, n - 1);
      assert Expanded(sinks, (set c | c in cs), p[n - 1]);
    }
  }

  // ------------------------------------------------------------- what was collected

  /** The assets of the plain sinks among these ids, each as often as it is named. */
  ghost function OwnAssets(sinks: Sinks, ids: seq<string>): multiset<Asset> {
    if ids == [] then multiset{} else
      OwnAssets(sinks, ids[..|ids| - 1]) + LeafAssets(sinks, ids[|ids| - 1])
  }

  ghost function LeafAssets(sinks: Sinks, id: string): multiset<Asset> {
    if id in sinks && !IsComposite(sinks[id]) then multiset(sinks[id].assets) else multiset{}
  }

  /** Each of these composites expanded once: its own plain members' assets. */
  ghost function Collected(sinks: Sinks, cs: seq<string>): multiset<Asset> {
    if cs == [] then multiset{} else
      Collected(sinks, cs[..|cs| - 1]) +
      (if cs[|cs| - 1] in sinks then OwnAssets(sinks, MemberIDs(sinks[cs[|cs| - 1]])) else multiset{})
  }

  lemma {:induction false} CollectedConcat(sinks: Sinks, cs: seq<string>, ds: seq<string>)
    ensures Collected(sinks, cs + ds) == Collected(sinks, cs) + Collected(sinks, ds)
  {
    if ds == [] {
      assert cs + ds == cs;
    } else {
      CollectedConcat(sinks, cs, ds[..|ds| - 1]);
      assert (cs + ds)[..|cs + ds| - 1] == cs + ds[..|ds| - 1];
    }
  }

  lemma {:induction false} OwnHas(sinks: Sinks, ids: seq<string>, a: Asset)
    ensures a in OwnAssets(sinks, ids) <==> exists m :: m in ids && a in LeafAssets(sinks, m)
  {
    if ids != [] {
      var front, last := ids[..|ids| - 1], ids[|ids| - 1];
      assert ids == front + [last];
      OwnHas(sinks, front, a);
    }
  }

  lemma {:induction false} CollectedHas(sinks: Sinks, cs: seq<string>, a: Asset)
    ensures a in Collected(sinks, cs) <==>
            exists c, m :: c in cs && c in sinks && m in MemberIDs(sinks[c]) && a in LeafAssets(sinks, m)
  {
    if cs != [] {
      var front, last := cs[..|cs| - 1], cs[|cs| - 1];
      assert cs == front + [last];
      CollectedHas(sinks, front, a);
      if last in sinks { OwnHas(sinks, MemberIDs(sinks[last]), a); }
    }
  }

  ghost predicate AllReached(sinks: Sinks, x: string, cs: seq<string>) {
    forall c :: c in cs ==> Reaches(sinks, x, c)
  }

  /** `found` lists the composites first expanded here, when `before` had been already. */
  ghost predicate NewlySeen(sinks: Sinks, before: set<string>, seen: set<string>, found: seq<string>) {
    seen == before + (set c | c in found) && Distinct(found) &&
    (forall c :: c in found ==> c !in before && IsPart(sinks, c))
  }

  ghost predicate OnlyParts(sinks: Sinks, seen: set<string>) {
    forall c :: c in seen ==> IsPart(sinks, c)
  }

  lemma NewlySeenJoin(sinks: Sinks, a: set<string>, b: set<string>, c: set<string>, f: seq<string>, g: seq<string>)
    requires NewlySeen(sinks, a, b, f) && NewlySeen(sinks, b, c, g)
    ensures NewlySeen(sinks, a, c, f + g)
  {
    var fg := f + g;
    forall i, j | 0 <= i < j < |fg| ensures fg[i] != fg[j] {
      if i < |f| <= j { assert f[i] in f && g[j - |f|] in g; }
    }
  }

  lemma ExpandedGrows(sinks: Sinks, seen: set<string>, more: set<string>, cs: seq<string>)
    requires AllExpanded(sinks, seen, cs) && seen <= more
    ensures AllExpanded(sinks, more, cs)
  {
  }

  /** A shared `seen` over one expansion. */
  class Expansion {
    const sinks: Sinks
    var seen: set<string>

    constructor (sinks: Sinks)
      ensures this.sinks == sinks && seen == {}
    {
      this.sinks := sinks;
      seen := {};
    }

    /** sinkAssets */
    method SinkAssets(s: Sink) returns (out: seq<Asset>, ghost found: seq<string>)
      requires Keyed(sinks) && s.id in sinks && sinks[s.id] == s && OnlyParts(sinks, seen)
      modifies this
      ensures OnlyParts(sinks, seen) && NewlySeen(sinks, old(seen), seen, found)
      ensures AllExpanded(sinks, seen, found) && AllReached(sinks, s.id, found)
      ensures old(seen) <= seen && (IsComposite(s) ==> s.id in seen)
      ensures multiset(out) == LeafAssets(sinks, s.id) + Collected(sinks, found)
      decreases |sinks.Keys - seen|, 1
    {
      if IsComposite(s) {
        out, found := MemberAssets(s);
      } else {
        out, found := s.assets, [];
        NothingNew(sinks, seen, s.id);
      }
    }

    /** memberAssets: each composite visited once. */
    method MemberAssets(s: Sink) returns (out: seq<Asset>, ghost found: seq<string>)
      requires Keyed(sinks) && s.id in sinks && sinks[s.id] == s && OnlyParts(sinks, seen) && IsComposite(s)
      modifies this
      ensures OnlyParts(sinks, seen) && NewlySeen(sinks, old(seen), seen, found)
      ensures AllExpanded(sinks, seen, found) && AllReached(sinks, s.id, found)
      ensures old(seen) <= seen && s.id in seen
      ensures multiset(out) == Collected(sinks, found)
      decreases |sinks.Keys - seen|, 0
    {
      hide MembersDone, NewlySeen, OnlyParts, AllExpanded, AllReached, Collected, LeafAssets, MemberIDs;
      if s.id in seen {
        NothingNew(sinks, seen, s.id);
        return [], [];
      }
      seen := seen + {s.id};
      ghost var left := sinks.Keys - seen;
      assert s.id in sinks.Keys - old(seen) && left < sinks.Keys - old(seen);
      CardBelow(left, sinks.Keys - old(seen));
      var ids := MemberIDs(s);
      out := [];
      ghost var below := [];
      MembersStart(sinks, old(seen), s);
      for n := 0 to |ids|
        invariant MembersDone(sinks, s, old(seen), seen, n, out, below)
        invariant old(seen) + {s.id} <= seen && s.id in seen
      {
        var id := ids[n];
        ghost var was := seen;
        if id in sinks && id !in seen {
          assert sinks.Keys - seen <= left;
          CardUpTo(sinks.Keys - seen, left);
          MembersAreParts(sinks, s, old(seen), seen, n, out, below);
          var more, under := SinkAssets(sinks[id]);
          MemberAdded(sinks, s, old(seen), was, seen, n, out, below, more, under);
          out := out + more;
          below := below + under;
        } else {
          MemberSkipped(sinks, s, old(seen), seen, n, out, below);
        }
      }
      found := [s.id] + below;
      MembersAll(sinks, s, old(seen), seen, out, below);
    }
  }

  /** The first n members of s are expanded; `below` are the composites found under them. */
  ghost predicate MembersDone(sinks: Sinks, s: Sink, before: set<string>, seen: set<string>, n: nat,
                              out: seq<Asset>, below: seq<string>) {
    var ids := MemberIDs(s);
    Keyed(sinks) && IsPart(sinks, s.id) && sinks[s.id] == s && s.id !in before && n <= |ids| &&
    OnlyParts(sinks, seen) && NewlySeen(sinks, before + {s.id}, seen, below) &&
    AllExpanded(sinks, seen, below) && AllReached(sinks, s.id, below) &&
    (forall i :: 0 <= i < n && IsPart(sinks, ids[i]) ==> ids[i] in seen) &&
    multiset(out) == OwnAssets(sinks, ids[..n]) + Collected(sinks, below)
  }

  lemma NothingNew(sinks: Sinks, seen: set<string>, x: string)
    ensures NewlySeen(sinks, seen, seen, []) && AllExpanded(sinks, seen, []) && AllReached(sinks, x, [])
    ensures Collected(sinks, []) == multiset{}
  {
  }

  lemma MembersStart(sinks: Sinks, before: set<string>, s: Sink)
    requires Keyed(sinks) && IsPart(sinks, s.id) && sinks[s.id] == s && s.id !in before && OnlyParts(sinks, before)
    ensures MembersDone(sinks, s, before, before + {s.id}, 0, [], [])
  {
    NothingNew(sinks, before + {s.id}, s.id);
  }

  lemma MembersAreParts(sinks: Sinks, s: Sink, before: set<string>, seen: set<string>, n: nat,
                        out: seq<Asset>, below: seq<string>)
    requires MembersDone(sinks, s, before, seen, n, out, below)
    ensures OnlyParts(sinks, seen)
  {
  }

  lemma OwnMore(sinks: Sinks, ids: seq<string>, n: nat)
    requires n < |ids|
    ensures OwnAssets(sinks, ids[..n + 1]) == OwnAssets(sinks, ids[..n]) + LeafAssets(sinks, ids[n])
  {
    assert ids[..n + 1][..n] == ids[..n];
  }

  lemma MemberSkipped(sinks: Sinks, s: Sink, before: set<string>, seen: set<string>, n: nat,
                      out: seq<Asset>, below: seq<string>)
    requires MembersDone(sinks, s, before, seen, n, out, below) && n < |MemberIDs(s)|
    requires MemberIDs(s)[n] !in sinks || MemberIDs(s)[n] in seen
    ensures MembersDone(sinks, s, before, seen, n + 1, out, below)
  {
    hide MemberIDs, NewlySeen, AllExpanded, AllReached, Collected;
    OwnMore(sinks, MemberIDs(s), n);
    assert LeafAssets(sinks, MemberIDs(s)[n]) == multiset{};
  }

  lemma MemberAdded(sinks: Sinks, s: Sink, before: set<string>, was: set<string>, seen: set<string>, n: nat,
                    out: seq<Asset>, below: seq<string>, more: seq<Asset>, under: seq<string>)
    requires MembersDone(sinks, s, before, was, n, out, below) && n < |MemberIDs(s)| && MemberIDs(s)[n] in sinks
    requires OnlyParts(sinks, seen) && NewlySeen(sinks, was, seen, under) && was <= seen
    requires AllExpanded(sinks, seen, under) && AllReached(sinks, MemberIDs(s)[n], under)
    requires IsPart(sinks, MemberIDs(s)[n]) ==> MemberIDs(s)[n] in seen
    requires multiset(more) == LeafAssets(sinks, MemberIDs(s)[n]) + Collected(sinks, under)
    ensures MembersDone(sinks, s, before, seen, n + 1, out + more, below + under)
  {
    hide MemberIDs, OnlyParts, NewlySeen, Expanded, AllReached, Collected, LeafAssets;
    var id := MemberIDs(s)[n];
    NewlySeenJoin(sinks, before + {s.id}, was, seen, below, under);
    ExpandedGrows(sinks, was, seen, below);
    CollectedConcat(sinks, below, under);
    ReachedUnder(sinks, s.id, id, below, under);
    OwnMore(sinks, MemberIDs(s), n);
    assert AllExpanded(sinks, seen, below + under);
  }

  lemma MembersAll(sinks: Sinks, s: Sink, before: set<string>, seen: set<string>, out: seq<Asset>, below: seq<string>)
    requires MembersDone(sinks, s, before, seen, |MemberIDs(s)|, out, below)
    ensures OnlyParts(sinks, seen) && NewlySeen(sinks, before, seen, [s.id] + below)
    ensures AllExpanded(sinks, seen, [s.id] + below) && AllReached(sinks, s.id, [s.id] + below)
    ensures multiset(out) == Collected(sinks, [s.id] + below)
  {
    hide MemberIDs, LeafAssets, Reaches;
    var ids := MemberIDs(s);
    assert ids[..|ids|] == ids;
    ReachesSelf(sinks, s.id);
    CollectedConcat(sinks, [s.id], below);
    assert [s.id][..0] == [];
    assert Collected(sinks, [s.id]) == OwnAssets(sinks, ids);
    assert NewlySeen(sinks, before, before + {s.id}, [s.id]);
    NewlySeenJoin(sinks, before, before + {s.id}, seen, [s.id], below);
  }

  lemma CardBelow(a: set<string>, b: set<string>)
    requires a < b
    ensures |a| < |b|
  {
    CardUpTo(a, b);
    assert b == a + (b - a);
    assert |b| == |a| + |b - a|;
  }

  lemma CardUpTo(a: set<string>, b: set<string>)
    requires a <= b
    ensures |a| <= |b|
  {
    assert b == a + (b - a);
  }

  lemma ReachedUnder(sinks: Sinks, x: string, m: string, below: seq<string>, under: seq<string>)
    requires IsPart(sinks, x) && m in MemberIDs(sinks[x])
    requires AllReached(sinks, x, below) && AllReached(sinks, m, under)
    ensures AllReached(sinks, x, below + under)
  {
    forall c | c in below + under ensures Reaches(sinks, x, c) {
      if c in under { ReachesThrough(sinks, x, m, c); }
    }
  }

  // ------------------------------------------------------------------- a whole sink

  /** The asset belongs to a plain sink that s is or reaches through members. */
  ghost predicate Writes(sinks: Sinks, x: string, a: Asset) {
    exists l :: Reaches(sinks, x, l) && a in LeafAssets(sinks, l)
  }

  /** `found` is every composite s reaches, each once. */
  ghost predicate AllComposites(sinks: Sinks, x: string, found: seq<string>) {
    Distinct(found) && forall c :: c in found <==> IsPart(sinks, c) && Reaches(sinks, x, c)
  }

  lemma FoundAll(sinks: Sinks, x: string, found: seq<string>)
    requires x in sinks && NewlySeen(sinks, {}, (set c | c in found), found)
    requires AllExpanded(sinks, (set c | c in found), found) && AllReached(sinks, x, found)
    requires IsPart(sinks, x) ==> x in found
    ensures AllComposites(sinks, x, found)
  {
    forall c | IsPart(sinks, c) && Reaches(sinks, x, c) ensures c in found {
      var p :| PathFromTo(sinks, x, c, p);
      assert |p| > 1 ==> IsPart(sinks, p[0]);
      ClosedHoldsPath(sinks, found, p, |p| - 1);
    }
  }

  lemma ReachesLast(sinks: Sinks, x: string, y: string) returns (c: string)
    requires Reaches(sinks, x, y) && x != y
    ensures IsPart(sinks, c) && Reaches(sinks, x, c) && y in MemberIDs(sinks[c])
  {
    var p :| PathFromTo(sinks, x, y, p);
    c := p[|p| - 2];
    var q := p[..|p| - 1];
    assert IsPart(sinks, p[|p| - 2]) && p[|p| - 2 + 1] in MemberIDs(sinks[p[|p| - 2]]);
    forall i | 0 <= i < |q| - 1 ensures IsPart(sinks, q[i]) && q[i + 1] in MemberIDs(sinks[q[i]]) {
      assert q[i] == p[i] && q[i + 1] == p[i + 1];
    }
    assert PathFromTo(sinks, x, c, q);
  }

  lemma ReachesStep(sinks: Sinks, x: string, c: string, y: string)
    requires Reaches(sinks, x, c) && IsPart(sinks, c) && y in MemberIDs(sinks[c]) && y in sinks
    ensures Reaches(sinks, x, y)
  {
    var p :| PathFromTo(sinks, x, c, p);
    var q := p + [y];
    forall i | 0 <= i < |q| - 1 ensures IsPart(sinks, q[i]) && q[i + 1] in MemberIDs(sinks[q[i]]) {
      if i < |p| - 1 { assert q[i] == p[i] && q[i + 1] == p[i + 1]; }
    }
    assert PathFromTo(sinks, x, y, q);
  }

  /** Expanding every reachable composite once collects exactly the reachable assets. */
  lemma CollectedExact(sinks: Sinks, x: string, found: seq<string>, a: Asset)
    requires x in sinks && AllComposites(sinks, x, found)
    ensures a in LeafAssets(sinks, x) + Collected(sinks, found) <==> Writes(sinks, x, a)
  {
    hide Reaches, MemberIDs, Collected;
    CollectedHas(sinks, found, a);
    if a in LeafAssets(sinks, x) {
      ReachesSelf(sinks, x);
    }
    if a in Collected(sinks, found) {
      var c, m :| c in found && c in sinks && m in MemberIDs(sinks[c]) && a in LeafAssets(sinks, m);
      ReachesStep(sinks, x, c, m);
    }
    if Writes(sinks, x, a) {
      var l :| Reaches(sinks, x, l) && a in LeafAssets(sinks, l);
      if l != x {
        var c := ReachesLast(sinks, x, l);
      }
    }
  }

  /** What a sink writes: the assets of every plain sink it is or reaches, with every
      composite on the way expanded once, however the members name each other. */
  method AssetsOf(sinks: Sinks, s: Sink) returns (out: seq<Asset>, ghost found: seq<string>)
    requires Keyed(sinks) && s.id in sinks && sinks[s.id] == s
    ensures forall a :: a in out <==> Writes(sinks, s.id, a)
    ensures AllComposites(sinks, s.id, found)
    ensures multiset(out) == LeafAssets(sinks, s.id) + Collected(sinks, found)
  {
    hide Writes, LeafAssets, Collected, Expanded, Reaches;
    var e := new Expansion(sinks);
    out, found := e.SinkAssets(s);
    assert {} + (set c | c in found) == (set c | c in found);
    FoundAll(sinks, s.id, found);
    forall a ensures a in out <==> Writes(sinks, s.id, a) {
      CollectedExact(sinks, s.id, found, a);
      assert a in out <==> a in multiset(out);
    }
  }

  /** m is named as a part of s: a failover's primary or one of its fallbacks, a txgroup's member. */
  predicate Names(s: Sink, m: string) {
    (s.typ == "failover" && (m in s.primary || m in s.fallbacks)) || (s.typ == "txgroup" && m in s.members)
  }

  /** A failover or txgroup writes exactly what the sinks it names write: the primary and every
      fallback alike. */
  lemma WritesThroughNames(sinks: Sinks, s: Sink, a: Asset)
    requires s.id in sinks && sinks[s.id] == s && (s.typ == "failover" || s.typ == "txgroup")
    ensures Writes(sinks, s.id, a) <==> exists m :: Names(s, m) && Writes(sinks, m, a)
  {
    hide Reaches, LeafAssets;
    assert forall m :: m in MemberIDs(s) <==> Names(s, m);
    if Writes(sinks, s.id, a) {
      var l :| Reaches(sinks, s.id, l) && a in LeafAssets(sinks, l);
      LeafIsPlain(sinks, l, a);
      assert l != s.id;
      var m := ReachesFirst(sinks, s.id, l);
      assert Names(s, m) && Writes(sinks, m, a);
    }
    if m :| Names(s, m) && Writes(sinks, m, a) {
      var l :| Reaches(sinks, m, l) && a in LeafAssets(sinks, l);
      ReachesThrough(sinks, s.id, m, l);
    }
  }

  lemma LeafIsPlain(sinks: Sinks, l: string, a: Asset)
    requires a in LeafAssets(sinks, l)
    ensures l in sinks && !IsComposite(sinks[l])
  {
  }

  /** The first step of a path. */
  lemma ReachesFirst(sinks: Sinks, x: string, y: string) returns (m: string)
    requires Reaches(sinks, x, y) && x != y
    ensures IsPart(sinks, x) && m in MemberIDs(sinks[x]) && Reaches(sinks, m, y)
  {
    var p :| PathFromTo(sinks, x, y, p);
    m := p[1];
    assert IsPart(sinks, p[0]) && p[0 + 1] in MemberIDs(sinks[p[0]]);
    assert PathFromTo(sinks, m, y, p[1..]) by {
      var q := p[1..];
      forall i | 0 <= i < |q| - 1 ensures IsPart(sinks, q[i]) && q[i + 1] in MemberIDs(sinks[q[i]]) {
        assert q[i] == p[i + 1] && q[i + 1] == p[i + 1 + 1];
      }
    }
  }

  /** A sink of any other type writes its own assets. */
  lemma PlainWritesOwn(sinks: Sinks, s: Sink, a: Asset)
    requires s.id in sinks && sinks[s.id] == s && s.typ != "failover" && s.typ != "txgroup"
    ensures Writes(sinks, s.id, a) <==> a in s.assets
  {
    hide Reaches;
    assert a in LeafAssets(sinks, s.id) <==> a in s.assets;
    ReachesSelf(sinks, s.id);
    if Writes(sinks, s.id, a) {
      var l :| Reaches(sinks, s.id, l) && a in LeafAssets(sinks, l);
      if l != s.id { var m := ReachesFirst(sinks, s.id, l); }
    }
  }
}
