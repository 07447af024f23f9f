/** Which connection of the linked instance replaces each one a workflow uses
    (internal/environment/promote.go, matchRefs; internal/environment/link.go, resolve). */
module ConnectionMatching {
  import opened Sequences
  import opened Workflows
  import opened Promotions
  import opened Decisions

  datatype Connection = Connection(id: string, name: string, typ: string, vhost: string)

  datatype MatchStatus = Matched | Suggested | Missing

  datatype Found = Found(target: Option<Connection>, status: MatchStatus, manual: bool)

  // ------------------------------------------------------------------------ resolve

  /** The targets of c's type that pass, in order. */
  function Candidates(targets: seq<Connection>, c: Connection, fits: Connection -> bool): (r: seq<Connection>)
    ensures forall t :: t in r <==> t in targets && t.typ == c.typ && fits(t)
  {
    if targets == [] then [] else
      var front, last := targets[..|targets| - 1], targets[|targets| - 1];
      assert targets == front + [last];
      var r := Candidates(front, c, fits);
      if last.typ == c.typ && fits(last) then r + [last] else r
  }

  /** Those that pass and are in the vhost. */
  function Within(fits: Connection -> bool, vhost: string): Connection -> bool {
    (t: Connection) => fits(t) && t.vhost == vhost
  }

  /** targets[i] is of the type and passes, and no other target does. */
  ghost predicate Only(targets: seq<Connection>, typ: string, fits: Connection -> bool, i: nat) {
    && i < |targets| && targets[i].typ == typ && fits(targets[i])
    && forall j :: 0 <= j < |targets| && targets[j].typ == typ && fits(targets[j]) ==> j == i
  }

  ghost predicate NoneFits(targets: seq<Connection>, typ: string, fits: Connection -> bool) {
    forall j :: 0 <= j < |targets| && targets[j].typ == typ ==> !fits(targets[j])
  }

  /** The target is the only one that passes in c's vhost, or the only one at all when none is
      there. */
  ghost predicate Picks(targets: seq<Connection>, c: Connection, fits: Connection -> bool, t: Connection) {
    || (exists i: nat :: Only(targets, c.typ, Within(fits, c.vhost), i) && targets[i] == t)
    || (NoneFits(targets, c.typ, Within(fits, c.vhost)) &&
        exists i: nat :: Only(targets, c.typ, fits, i) && targets[i] == t)
  }

  /** pick */
  function Pick(targets: seq<Connection>, c: Connection, fits: Connection -> bool): (r: Option<Connection>)
    ensures forall t :: r == Some(t) <==> Picks(targets, c, fits, t)
  {
    var all := Candidates(targets, c, fits);
    var same := Candidates(targets, c, Within(fits, c.vhost));
    CandidatesAre(targets, c, fits);
    CandidatesAre(targets, c, Within(fits, c.vhost));
    if |same| == 1 then Some(same[0]) else if |same| == 0 && |all| == 1 then Some(all[0]) else None
  }

  lemma {:induction false} CandidatesAre(targets: seq<Connection>, c: Connection, fits: Connection -> bool)
    ensures var r := Candidates(targets, c, fits);
      && (|r| == 0 <==> NoneFits(targets, c.typ, fits))
      && (|r| == 1 <==> exists i: nat :: Only(targets, c.typ, fits, i))
      && (forall i: nat :: Only(targets, c.typ, fits, i) ==> r != [] && r[0] == targets[i])
  {
    if targets != [] {
      var n := |targets| - 1;
      CandidatesAre(targets[..n], c, fits);
      assert forall j :: 0 <= j < n ==> targets[..n][j] == targets[j];
      if targets[n].typ == c.typ && fits(targets[n]) {
        OnlyLast(targets, c.typ, fits);
      } else {
        NotLast(targets, c.typ, fits);
      }
    }
  }

  lemma OnlyLast(targets: seq<Connection>, typ: string, fits: Connection -> bool)
    requires |targets| > 0 && targets[|targets| - 1].typ == typ && fits(targets[|targets| - 1])
    ensures var n := |targets| - 1;
      && (Only(targets, typ, fits, n) <==> NoneFits(targets[..n], typ, fits))
      && (forall i: nat :: Only(targets, typ, fits, i) ==> i == n)
      && !NoneFits(targets, typ, fits)
  {
    var n := |targets| - 1;
    assert forall j :: 0 <= j < n ==> targets[..n][j] == targets[j];
    if Only(targets, typ, fits, n) {
      forall j | 0 <= j < n && targets[..n][j].typ == typ ensures !fits(targets[..n][j]) {
        assert targets[j] == targets[..n][j];
      }
    }
  }

  lemma NotLast(targets: seq<Connection>, typ: string, fits: Connection -> bool)
    requires |targets| > 0 && !(targets[|targets| - 1].typ == typ && fits(targets[|targets| - 1]))
    ensures var n := |targets| - 1;
      && (forall i: nat :: Only(targets, typ, fits, i) <==> Only(targets[..n], typ, fits, i))
      && (NoneFits(targets, typ, fits) <==> NoneFits(targets[..n], typ, fits))
  {
    var n := |targets| - 1;
    assert forall j :: 0 <= j < n ==> targets[..n][j] == targets[j];
    forall i: nat ensures Only(targets, typ, fits, i) <==> Only(targets[..n], typ, fits, i) {
      if Only(targets, typ, fits, i) {
        forall j | 0 <= j < n && targets[..n][j].typ == typ && fits(targets[..n][j]) ensures j == i {
          assert targets[j] == targets[..n][j];
        }
      }
    }
    if NoneFits(targets, typ, fits) {
      forall j | 0 <= j < n && targets[..n][j].typ == typ ensures !fits(targets[..n][j]) {
        assert targets[j] == targets[..n][j];
      }
    }
  }

  function WithID(targets: seq<Connection>, id: string, typ: string, anyType: bool): (i: int)
    ensures -1 <= i < |targets|
    ensures i >= 0 ==> targets[i].id == id && (anyType || targets[i].typ == typ)
    ensures forall j :: 0 <= j < i ==> !(targets[j].id == id && (anyType || targets[j].typ == typ))
    ensures i < 0 ==> forall t :: t in targets ==> !(t.id == id && (anyType || t.typ == typ))
  {
    if targets == [] then -1 else
      assert targets == [targets[0]] + targets[1..];
      if targets[0].id == id && (anyType || targets[0].typ == typ) then 0 else
        var i := WithID(targets[1..], id, typ, anyType);
        if i < 0 then -1 else i + 1
  }

  /** The targets whose name is the same, and those whose name is the same to `base`. */
  function Called(name: string): Connection -> bool { (t: Connection) => EqualFold(t.name, name) }

  function CalledLike(base: string -> string, name: string): Connection -> bool {
    (t: Connection) => base(t.name) == base(name)
  }

  /** The first target with the id, of the type. */
  ghost predicate FirstWithID(targets: seq<Connection>, id: string, typ: string, t: Connection) {
    exists i :: 0 <= i < |targets| && targets[i] == t && t.id == id && t.typ == typ &&
      forall j :: 0 <= j < i ==> targets[j].id != id || targets[j].typ != typ
  }

  /** What c is matched with when nobody chose: a target of its id and type; else the one of its
      name; else, as a suggestion, the one of a name alike; else nothing. */
  ghost predicate MatchesByItself(c: Connection, targets: seq<Connection>, base: string -> string, r: Found) {
    if exists t :: t in targets && t.id == c.id && t.typ == c.typ then
      r.status == Matched && r.target.Some? && FirstWithID(targets, c.id, c.typ, r.target.value)
    else if exists t :: Picks(targets, c, Called(c.name), t) then
      r.status == Matched && r.target.Some? && Picks(targets, c, Called(c.name), r.target.value)
    else if exists t :: Picks(targets, c, CalledLike(base, c.name), t) then
      r.status == Suggested && r.target.Some? && Picks(targets, c, CalledLike(base, c.name), r.target.value)
    else r.status == Missing && r.target.None?
  }

  /** resolve: the person's own match, and only that, where there is one. */
  function Resolve(c: Connection, mapping: map<string, string>, targets: seq<Connection>,
                   base: string -> string): (r: Found)
    ensures r.manual <==> c.id in mapping
    ensures r.target.Some? ==> r.target.value in targets
    ensures r.status == Missing <==> r.target.None?
    ensures c.id in mapping ==>
      && r.status != Suggested && (r.status == Matched <==> exists t :: t in targets && t.id == mapping[c.id])
      && (r.status == Matched ==> r.target.value.id == mapping[c.id])
    ensures c.id !in mapping ==> MatchesByItself(c, targets, base, r)
  {
    hide Picks, Called, CalledLike;
    if c.id in mapping then
      var i := WithID(targets, mapping[c.id], "", true);
      if i >= 0 then Found(Some(targets[i]), Matched, true) else Found(None, Missing, true)
    else
      var i := WithID(targets, c.id, c.typ, false);
      if i >= 0 then Found(Some(targets[i]), Matched, false) else
        var same := Pick(targets, c, Called(c.name));
        if same.Some? then Found(same, Matched, false) else
          var like := Pick(targets, c, CalledLike(base, c.name));
          if like.Some? then Found(like, Suggested, false) else Found(None, Missing, false)
  }

  // ---------------------------------------------------------------------- matchRefs

  /** What matching one kind of reference found: the map, what is carried, and how many
      references are not ready. */
  datatype MatchedRefs = MatchedRefs(into: map<string, string>, carried: seq<Carried>, unready: nat)

  /** The map sends an id to a connection of the other instance, or to itself. */
  ghost predicate MapsWell(into: map<string, string>, ids: seq<string>, targets: seq<Connection>) {
    forall k :: k in into ==> k in ids && (into[k] == k || exists t :: t in targets && t.id == into[k])
  }

  /** Where a reference goes: to its match, to itself when it is carried, or nowhere. */
  function IntoOf(id: string, here: map<string, Connection>, plain: set<string>, mapping: map<string, string>,
                  targets: seq<Connection>, carry: bool, base: string -> string): (r: Option<string>)
    ensures r.Some? ==> r.value == id || exists t :: t in targets && t.id == r.value
  {
    if id !in here then None else
      var r := Resolve(here[id], mapping, targets, base);
      if r.status == Matched then Some(r.target.value.id)
      else if r.status == Missing && !r.manual && carry && id !in plain then Some(id)
      else None
  }

  /** The reference has nothing to match there and goes along under its own id: nobody chose a
      match for it, and no credential in it is plain text. */
  predicate GoesAlong(id: string, here: map<string, Connection>, plain: set<string>, mapping: map<string, string>,
                      targets: seq<Connection>, carry: bool, base: string -> string) {
    id in here && Resolve(here[id], mapping, targets, base).status == Missing && here[id].id !in mapping && carry &&
    id !in plain
  }

  /** Case by case: a connection that is not here goes nowhere; where a person chose, to that
      target if it is there and nowhere else; otherwise to the target of its id and type, or the
      one of its name; a name that is only alike has to be confirmed; and with nothing alike it
      goes along if it may. */
  lemma GoesTo(id: string, here: map<string, Connection>, plain: set<string>, mapping: map<string, string>,
               targets: seq<Connection>, carry: bool, base: string -> string)
    ensures var r := IntoOf(id, here, plain, mapping, targets, carry, base);
      if id !in here then r == None else
        var c := here[id];
        if c.id in mapping then
          r == if exists t :: t in targets && t.id == mapping[c.id] then Some(mapping[c.id]) else None
        else if exists t :: t in targets && t.id == c.id && t.typ == c.typ then r == Some(c.id)
        else if exists t :: Picks(targets, c, Called(c.name), t) then
          exists t :: Picks(targets, c, Called(c.name), t) && r == Some(t.id)
        else if exists t :: Picks(targets, c, CalledLike(base, c.name), t) then r == None
        else r == if carry && id !in plain then Some(id) else None
  {
    hide Resolve, Picks, Called, CalledLike;
  }

  /** The places of the references that have one, and those that go along. */
  ghost function Places(ids: seq<string>, here: map<string, Connection>, plain: set<string>,
                        mapping: map<string, string>, targets: seq<Connection>, carry: bool,
                        base: string -> string): map<string, string> {
    map id | id in ids && IntoOf(id, here, plain, mapping, targets, carry, base).Some? ::
      IntoOf(id, here, plain, mapping, targets, carry, base).value
  }

  ghost function Along(ids: seq<string>, here: map<string, Connection>, plain: set<string>,
                       mapping: map<string, string>, targets: seq<Connection>, carry: bool,
                       base: string -> string): set<string> {
    set id | id in ids && GoesAlong(id, here, plain, mapping, targets, carry, base)
  }

  /** goes and along say of the reference what the matching finds. */
  ghost predicate IsPlaced(id: string, here: map<string, Connection>, plain: set<string>,
                           mapping: map<string, string>, targets: seq<Connection>, carry: bool,
                           base: string -> string, goes: map<string, string>, along: set<string>) {
    if id !in here then id !in goes && id !in along else
      var r := Resolve(here[id], mapping, targets, base);
      if r.status == Matched then id in goes && goes[id] == r.target.value.id && id !in along
      else if r.status == Missing && !r.manual && carry && id !in plain then
        id in goes && goes[id] == id && id in along
      else id !in goes && id !in along
  }

  lemma Placed(ids: seq<string>, n: nat, here: map<string, Connection>, plain: set<string>,
               mapping: map<string, string>, targets: seq<Connection>, carry: bool, base: string -> string)
    requires n < |ids|
    ensures IsPlaced(ids[n], here, plain, mapping, targets, carry, base,
                     Places(ids, here, plain, mapping, targets, carry, base),
                     Along(ids, here, plain, mapping, targets, carry, base))
    ensures ids[n] in Along(ids, here, plain, mapping, targets, carry, base) ==>
              ids[n] in Places(ids, here, plain, mapping, targets, carry, base)
  {
    hide Resolve, MatchesByItself;
  }

  /** What m holds of ids[..n]: the place of each that has one, those that go along, and how many
      have none. */
  ghost predicate MatchedUpTo(m: MatchedRefs, kind: string, ids: seq<string>, n: nat, goes: map<string, string>,
                              along: set<string>) {
    && n <= |ids|
    && (forall k :: k in m.into <==> k in ids[..n] && k in goes)
    && (forall k :: k in m.into ==> m.into[k] == goes[k])
    && (Distinct(ids) ==> |m.into| + m.unready == n)
    && (m.unready == 0 <==> forall id :: id in ids[..n] ==> id in m.into)
    && (forall x :: x in m.carried <==> x.kind == kind && x.id in ids[..n] && x.id in along)
  }

  /** One more reference: matched, going along or left unready. */
  function Next(m: MatchedRefs, kind: string, id: string, goes: map<string, string>, along: set<string>): MatchedRefs {
    if id !in goes then m.(unready := m.unready + 1)
    else if id in along then m.(into := m.into[id := goes[id]], carried := m.carried + [Carried(kind, id)])
    else m.(into := m.into[id := goes[id]])
  }

  lemma MatchedNext(m: MatchedRefs, kind: string, ids: seq<string>, n: nat, goes: map<string, string>,
                    along: set<string>)
    requires MatchedUpTo(m, kind, ids, n, goes, along) && n < |ids| && (ids[n] in along ==> ids[n] in goes)
    ensures MatchedUpTo(Next(m, kind, ids[n], goes, along), kind, ids, n + 1, goes, along)
  {
    var id := ids[n];
    assert ids[..n + 1] == ids[..n] + [id];
    assert Distinct(ids) ==> id !in ids[..n];
    assert forall k :: k in ids[..n + 1] <==> k in ids[..n] || k == id;
    assert id !in goes ==> id !in m.into && id in ids[..n + 1];
  }

  /** Each reference is in the map exactly when it has a place to go, which the map gives; those
      that go along are carried; the rest are counted. */
  ghost predicate AllMatched(m: MatchedRefs, kind: string, ids: seq<string>, here: map<string, Connection>,
                             plain: set<string>, mapping: map<string, string>, targets: seq<Connection>, carry: bool,
                             base: string -> string) {
    && MapsWell(m.into, ids, targets)
    && (forall k :: k in m.into <==> k in ids && IntoOf(k, here, plain, mapping, targets, carry, base).Some?)
    && (forall k :: k in m.into ==> IntoOf(k, here, plain, mapping, targets, carry, base) == Some(m.into[k]))
    && (Distinct(ids) ==> |m.into| + m.unready == |ids|)
    && (m.unready == 0 <==> forall id :: id in ids ==> id in m.into)
    && (forall x :: x in m.carried <==>
          x.kind == kind && x.id in ids && GoesAlong(x.id, here, plain, mapping, targets, carry, base))
  }

  lemma WellMapped(m: MatchedRefs, kind: string, ids: seq<string>, here: map<string, Connection>,
                   plain: set<string>, mapping: map<string, string>, targets: seq<Connection>, carry: bool,
                   base: string -> string)
    requires AllMatched(m, kind, ids, here, plain, mapping, targets, carry, base)
    ensures MapsWell(m.into, ids, targets) && (m.unready == 0 <==> forall id :: id in ids ==> id in m.into)
  {
    hide Resolve, IntoOf, GoesAlong, MapsWell;
  }

  lemma MatchedAll(m: MatchedRefs, kind: string, ids: seq<string>, here: map<string, Connection>,
                   plain: set<string>, mapping: map<string, string>, targets: seq<Connection>, carry: bool,
                   base: string -> string)
    requires MatchedUpTo(m, kind, ids, |ids|, Places(ids, here, plain, mapping, targets, carry, base),
                         Along(ids, here, plain, mapping, targets, carry, base))
    ensures AllMatched(m, kind, ids, here, plain, mapping, targets, carry, base)
  {
    hide Resolve, MatchesByItself, IntoOf, GoesAlong;
    assert ids[..|ids|] == ids;
  }

  /** The body of matchAll's loop. */
  method MatchOne(so_far: MatchedRefs, kind: string, id: string, here: map<string, Connection>, plain: set<string>,
                  mapping: map<string, string>, targets: seq<Connection>, carry: bool, base: string -> string,
                  ghost goes: map<string, string>, ghost along: set<string>)
    returns (m: MatchedRefs)
    requires IsPlaced(id, here, plain, mapping, targets, carry, base, goes, along)
    ensures m == Next(so_far, kind, id, goes, along)
  {
    hide Resolve, MatchesByItself;
    m := so_far;
    if id !in here {
      m := m.(unready := m.unready + 1);
    } else {
      var r := Resolve(here[id], mapping, targets, base);
      if r.status == Matched {
        m := m.(into := m.into[id := r.target.value.id]);
      } else if r.status == Missing && !r.manual && carry && id !in plain {
        m := m.(into := m.into[id := id], carried := m.carried + [Carried(kind, id)]);
      } else {
        m := m.(unready := m.unready + 1);
      }
    }
  }

  /** matchAll: each reference is matched, or carried under its own id, or left unready. */
  method MatchAll(kind: string, ids: seq<string>, here: map<string, Connection>, plain: set<string>,
                  mapping: map<string, string>, targets: seq<Connection>, carry: bool, base: string -> string)
    returns (m: MatchedRefs)
    ensures AllMatched(m, kind, ids, here, plain, mapping, targets, carry, base)
  {
    m := MatchedRefs(map[], [], 0);
    hide Resolve, MatchesByItself, IntoOf, GoesAlong, Places, Along, AllMatched, Picks, IsPlaced, Next;
    ghost var goes := Places(ids, here, plain, mapping, targets, carry, base);
    ghost var along := Along(ids, here, plain, mapping, targets, carry, base);
    assert MatchedUpTo(m, kind, ids, 0, goes, along);
    hide MatchedUpTo;
    for n := 0 to |ids|
      invariant MatchedUpTo(m, kind, ids, n, goes, along)
    {
      Placed(ids, n, here, plain, mapping, targets, carry, base);
      MatchedNext(m, kind, ids, n, goes, along);
      m := MatchOne(m, kind, ids[n], here, plain, mapping, targets, carry, base, goes, along);
    }
    MatchedAll(m, kind, ids, here, plain, mapping, targets, carry, base);
  }

  // ----------------------------------------------------------- what a sent workflow names

  /** Every connection the other instance lists has an id. */
  ghost predicate AllNamed(targets: seq<Connection>) {
    forall t :: t in targets ==> t.id != ""
  }

  /** The references of a workflow are never blank. */
  lemma {:induction false} RefsNotBlank(nodes: seq<Node>)
    ensures "" !in RawSources(nodes) && "" !in RawSinks(nodes)
  {
    if nodes != [] { RefsNotBlank(nodes[..|nodes| - 1]); }
  }

  /** A map that matching built never has a blank key, and has a blank value exactly when a
      reference was matched with a connection the other instance listed without an id. */
  lemma MapsHaveNoBlankKey(wf: Workflow, ids: seq<string>, into: map<string, string>, targets: seq<Connection>)
    requires (ids == Sources(wf) || ids == Sinks(wf)) && MapsWell(into, ids, targets)
    ensures "" !in into
    ensures AllNamed(targets) ==> KeepsBlank(into)
    ensures KeepsBlank(into) <==> forall k :: k in into ==> into[k] != ""
  {
    RefsNotBlank(wf.nodes);
    assert "" !in ids;
  }

  /** matchRefs: both kinds. The rewritten workflow then names exactly what its references were
      matched with, and with nothing unready no reference is left as it was by oversight. */
  method MatchRefs(wf: Workflow, srcs: map<string, Connection>, snks: map<string, Connection>,
                   plainSrcs: set<string>, plainSnks: set<string>, mapping: map<string, string>,
                   srcTargets: seq<Connection>, snkTargets: seq<Connection>, carry: bool, base: string -> string)
    returns (src: MatchedRefs, snk: MatchedRefs)
    ensures "" !in src.into && "" !in snk.into
    ensures AllNamed(srcTargets) && AllNamed(snkTargets) ==> CarriesRefs(wf, src.into, snk.into)
    ensures src.unready + snk.unready == 0 <==> Covers(wf, src.into, snk.into)
    ensures AllMatched(src, "source", Sources(wf), srcs, plainSrcs, mapping, srcTargets, carry, base)
    ensures AllMatched(snk, "sink", Sinks(wf), snks, plainSnks, mapping, snkTargets, carry, base)
  {
    var srcIDs, snkIDs := WorkflowRefs(wf);
    hide CarriesRefs, KeepsBlank, MapsWell, AllMatched;
    src := MatchAll("source", srcIDs, srcs, plainSrcs, mapping, srcTargets, carry, base);
    snk := MatchAll("sink", snkIDs, snks, plainSnks, mapping, snkTargets, carry, base);
    WellMapped(src, "source", srcIDs, srcs, plainSrcs, mapping, srcTargets, carry, base);
    WellMapped(snk, "sink", snkIDs, snks, plainSnks, mapping, snkTargets, carry, base);
    MapsHaveNoBlankKey(wf, srcIDs, src.into, srcTargets);
    MapsHaveNoBlankKey(wf, snkIDs, snk.into, snkTargets);
    if AllNamed(srcTargets) && AllNamed(snkTargets) {
      RewriteCarriesRefs(wf, src.into, snk.into);
    }
  }
}
