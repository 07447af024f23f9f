/** The service as it runs: its settings are fields, and its operations change them step
    by step (internal/environment/receive.go, secrets_sync.go, carry.go). Each method is
    tied to the function of the store that specifies it. */
module PromotionService {
  import opened Workflows
  import opened Promotions
  import opened Decisions
  import opened Admission
  import P = Promotions
  import D = Decisions
  import A = Admission

  class Service {
    var promotions: seq<Promotion>
    var bodies: map<string, Workflow>
    var sent: map<string, map<string, string>>
    var workflows: map<string, Workflow>
    var history: map<string, seq<Workflow>>
    var sources: map<string, string>
    var sinks: map<string, string>
    var secrets: Secrets
    var peers: seq<Peer>
    const backend: Backend

    ghost function Contents(): Store
      reads this
    {
      Store(promotions, bodies, sent, Flows(workflows, history), Conns(sources, sinks), secrets, peers, backend)
    }

    constructor (backend: Backend)
      ensures Contents() == Store([], map[], map[], Flows(map[], map[]), Conns(map[], map[]), map[], [], backend)
    {
      promotions, bodies, sent, workflows, history := [], map[], map[], map[], map[];
      sources, sinks, secrets, peers := map[], map[], map[], [];
      this.backend := backend;
    }

    // ------------------------------------------------------------------ deploying

    method FillSecrets(p: Promotion, values: map<string, string>, env: Env) returns (ok: bool, report: SecretsReport)
      modifies this`secrets
      ensures Contents() == old(Contents()).(secrets := P.FillSecrets(old(Contents()), p, values, env).secrets)
      ensures ok == P.FillSecrets(old(Contents()), p, values, env).ok
      ensures report == P.FillSecrets(old(Contents()), p, values, env).report
    {
      ok, report := true, NOTHING;
      if p.offer.secrets == [] || backend.NoSecrets? { return; }
      var vhost := VHostOf(p.offer.vhost);
      var names := p.offer.secrets;
      ghost var start := secrets;
      for n := 0 to |names|
        invariant ok
        invariant Filled(secrets, true, report) == FillUpTo(start, p.id, vhost, names, n, values, backend, env)
      {
        var name := names[n];
        ghost var so_far := FillUpTo(start, p.id, vhost, names, n, values, backend, env);
        if (vhost, name) in secrets {
          report := report.(kept := report.kept + [name]);
        } else if name !in values || !backend.Writable? {
          report := report.(missing := report.missing + [name]);
        } else if (p.id, name) in env.secretFails {
          ok := false;
          FillStops(start, p.id, vhost, names, n + 1, |names|, values, backend, env);
          return;
        } else if (vhost, name) in env.raced {
          secrets := secrets[(vhost, name) := env.raced[(vhost, name)]];
          report := report.(kept := report.kept + [name]);
        } else {
          secrets := secrets[(vhost, name) := values[name]];
          report := report.(created := report.created + [name]);
        }
      }
    }

    method CreateCarried(carried: seq<Carried>, vhost: string, env: Env) returns (ok: bool)
      modifies this`sources, this`sinks
      ensures var r := CreateUpTo(old(Contents()).conns, carried, |carried|, vhost, env);
        Contents() == old(Contents()).(conns := r.0) && ok == r.1
    {
      ok := true;
      ghost var start := Conns(sources, sinks);
      for n := 0 to |carried|
        invariant ok && (Conns(sources, sinks), true) == CreateUpTo(start, carried, n, vhost, env)
      {
        var c := carried[n];
        var found := if c.kind == "source" then c.id in sources else c.id in sinks;
        if !found {
          if c in env.connectionFails {
            ok := false;
            CreateStops(start, carried, n + 1, |carried|, vhost, env);
            return;
          }
          if c.kind == "source" {
            sources := sources[c.id := vhost];
          } else {
            sinks := sinks[c.id := vhost];
          }
        }
      }
    }

    method Fail(id: string, who: string)
      modifies this`promotions, this`sent
      ensures Contents() == P.Fail(old(Contents()), id, who)
    {
      var i := IndexOf(promotions, id);
      if i >= 0 {
        var p := promotions[i];
        promotions := promotions[i := p.(status := Failed, decidedBy := who)];
        if p.offer.filled != [] { sent := sent - {id}; }
      }
    }

    method DeploySecrets(p: Promotion, approver: map<string, string>, env: Env) returns (ok: bool,
                         report: SecretsReport)
      modifies this`secrets, this`sent
      ensures var r := P.DeploySecrets(old(Contents()), p, approver, env);
        Contents() == r.0 && ok == r.1.ok && report == r.1.report
    {
      var values := approver;
      if p.offer.filled != [] {
        var typed := if p.id in sent then sent[p.id] else map[];
        if exists name :: name in p.offer.filled && name !in typed {
          return false, NOTHING;
        }
        values := typed + approver;
      }
      ok, report := FillSecrets(p, values, env);
      if ok && p.offer.filled != [] { sent := sent - {p.id}; }
    }

    method ApplyPromoted(wf: Workflow, start: bool, stopped: bool) returns (previous: nat, applied: nat)
      modifies this`workflows, this`history
      ensures var r := P.ApplyPromoted(old(Contents()).flows, wf, start, stopped);
        Contents() == old(Contents()).(flows := r.flows) && previous == r.previous && applied == r.applied
    {
      if wf.id in workflows {
        var existing := workflows[wf.id];
        var after := Merged(existing, wf, start, stopped);
        var hist := if wf.id in history then history[wf.id] else [];
        if hist == [] { hist := [existing]; }
        previous := |hist|;
        applied := previous + 1;
        workflows := workflows[wf.id := after];
        history := history[wf.id := hist + [after]];
      } else {
        var made := wf.(active := start && !stopped, run := wf.run.(workspaceID := ""));
        workflows := workflows[wf.id := made];
        history := history[wf.id := [made]];
        previous, applied := 0, 1;
      }
    }

    method Deploy(id: string, terms: Terms, env: Env) returns (ok: bool)
      modifies this
      ensures Contents() == P.Deploy(old(Contents()), id, terms, env).0
      ensures ok == P.Deploy(old(Contents()), id, terms, env).1
    {
      var i := IndexOf(promotions, id);
      if id !in bodies || i < 0 ||
         !HasConnections(Conns(sources, sinks), Sender(peers, promotions[i]), bodies[id],
             promotions[i].offer.connections) {
        Fail(id, terms.who);
        return false;
      }
      var p, wf := promotions[i], bodies[id];
      var filled, report := DeploySecrets(p, terms.values, env);
      if !filled {
        Fail(id, terms.who);
        return false;
      }
      var made := CreateCarried(p.offer.connections, LandsIn(Flows(workflows, history), wf), env);
      if !made || id in env.applyFails {
        Fail(id, terms.who);
        return false;
      }
      var stopped := report.missing != [] && !terms.startAnyway;
      var previous, applied := ApplyPromoted(wf, p.offer.start, stopped);
      promotions := promotions[i := Promotion(id, p.offer, Deployed, terms.who, previous, applied, report, stopped)];
      ok := true;
    }

    method Undo(id: string, env: Env) returns (ok: bool)
      modifies this`promotions, this`workflows, this`history
      ensures Contents() == P.Undo(old(Contents()), id, env).0
      ensures ok == P.Undo(old(Contents()), id, env).1
    {
      var i := IndexOf(promotions, id);
      if i < 0 || !Undoable(Flows(workflows, history), promotions[i], env) { return false; }
      var p := promotions[i];
      var w := p.offer.workflowID;
      var hist := if w in history then history[w] else [];
      if p.previous > 0 {
        var was := hist[p.previous - 1].(id := w);
        workflows := workflows[w := was];
        history := history[w := hist + [was]];
      } else {
        var before := workflows[w];
        var after := before.(active := false);
        hist := if after.id in history then history[after.id] else [];
        if hist == [] { hist := [before]; }
        workflows := workflows[after.id := after];
        history := history[after.id := hist + [after]];
      }
      promotions := promotions[i := p.(status := RolledBack)];
      ok := true;
    }

    /** The release whose member k failed: those before it are undone, newest first, and
        those after it are marked failed. An undo that fails is passed over. */
    method UnwindRelease(ids: seq<string>, k: nat, who: string, env: Env)
      requires k < |ids|
      modifies this
      ensures Contents() == Unwind(old(Contents()), ids, k, who, env)
    {
      var j := k;
      while j > 0
        invariant 0 <= j <= k
        invariant UndoDown(Contents(), ids, j, env) == UndoDown(old(Contents()), ids, k, env)
      {
        var _ := Undo(ids[j - 1], env);
        j := j - 1;
      }
      for r := k + 1 to |ids|
        invariant FailFrom(Contents(), ids, r, who) == Unwind(old(Contents()), ids, k, who, env)
      {
        Fail(ids[r], who);
      }
    }

    /** group: a promotion sent alone is its own. */
    method GroupOf(i: nat) returns (g: seq<nat>)
      requires i < |promotions|
      ensures g == Group(promotions, i)
    {
      g := [];
      for j := 0 to |promotions|
        invariant g == GroupUpTo(promotions, i, j)
      {
        if SameGroup(promotions, i, j) { g := g + [j]; }
      }
    }

    method DeployGroup(id: string, terms: Terms, env: Env) returns (ok: bool)
      modifies this
      ensures Contents() == P.DeployGroup(old(Contents()), id, terms, env).0
      ensures ok == P.DeployGroup(old(Contents()), id, terms, env).1
    {
      hide P.Deploy, P.Unwind;
      var i := IndexOf(promotions, id);
      if i < 0 { return false; }
      var g := GroupOf(i);
      var ids := IDsAt(promotions, g);
      ghost var whole := DeployFrom(Contents(), ids, 0, terms, env);
      for k := 0 to |ids|
        invariant DeployFrom(Contents(), ids, k, terms, env) == whole
      {
        var deployed := Deploy(ids[k], terms, env);
        if !deployed {
          if |ids| > 1 { UnwindRelease(ids, k, terms.who, env); }
          return false;
        }
      }
      ok := true;
    }

    // ------------------------------------------------------------------- deciding

    /** Every member of g gets the status: the loops at the end of approve's claim and of Reject. */
    method MarkAll(g: seq<nat>, status: Status, who: string)
      requires forall k :: 0 <= k < |g| ==> g[k] < |promotions|
      modifies this`promotions
      ensures promotions == Mark(old(promotions), g, status, who)
    {
      ghost var start := promotions;
      for k := 0 to |g|
        invariant promotions == Mark(start, g[..k], status, who)
      {
        assert g[..k + 1] == g[..k] + [g[k]];
        promotions := promotions[g[k] := promotions[g[k]].(status := status, decidedBy := who)];
      }
      assert g[..|g|] == g;
    }

    /** The loop of approve's claim: the first member that stands in the way. */
    method CheckMembers(g: seq<nat>, rules: Rules, username: string) returns (v: Verdict)
      requires forall k :: 0 <= k < |g| ==> g[k] < |promotions|
      ensures v == ClaimVerdict(promotions, g, |g|, rules, username)
    {
      for k := 0 to |g|
        invariant ClaimVerdict(promotions, g, k, rules, username).Fine?
      {
        var p := promotions[g[k]];
        if p.status != Pending {
          ClaimStops(promotions, g, k + 1, |g|, rules, username);
          return Refuse(Conflict);
        }
        if SentBy(p, rules, username) {
          ClaimStops(promotions, g, k + 1, |g|, rules, username);
          return Refuse(Forbidden);
        }
      }
      v := Fine;
    }

    /** filledSecrets: the typed values without the blank ones, if all may be stored. */
    method FilledSecrets(g: seq<nat>, typed: map<string, string>) returns (ok: bool, filled: map<string, string>)
      requires forall k :: 0 <= k < |g| ==> g[k] < |promotions|
      ensures ok == ValuesAccepted(Contents(), g, typed) && filled == NonBlank(typed)
    {
      filled := NonBlank(typed);
      ok := true;
      if filled != map[] {
        ok := backend.Writable?;
        var needed: set<string> := {};
        for k := 0 to |g|
          invariant forall name :: name in needed <==> exists a :: 0 <= a < k && name in promotions[g[a]].offer.secrets
        {
          needed := needed + (set name | name in promotions[g[k]].offer.secrets);
        }
        if exists name :: name in filled && name !in needed { ok := false; }
      }
    }

    /** The critical section of approve. */
    method Claim(rules: Rules, id: string, username: string, who: string, typed: map<string, string>)
      returns (v: Verdict, filled: map<string, string>)
      modifies this`promotions
      ensures Contents() == D.Claim(old(Contents()), rules, id, username, who, typed).0
      ensures v == D.Claim(old(Contents()), rules, id, username, who, typed).1 && filled == NonBlank(typed)
    {
      hide ClaimVerdict, ValuesAccepted, Group;
      filled := NonBlank(typed);
      var i := IndexOf(promotions, id);
      if i < 0 { return Refuse(NotFound), filled; }
      var g := GroupOf(i);
      v := CheckMembers(g, rules, username);
      if v.Refuse? { return; }
      var accepted;
      accepted, filled := FilledSecrets(g, typed);
      if !accepted { return Refuse(Invalid), filled; }
      MarkAll(g, Deploying, who);
    }

    method Approve(rules: Rules, id: string, username: string, who: string, typed: map<string, string>,
                   startAnyway: bool, env: Env) returns (ok: bool)
      modifies this
      ensures Contents() == D.Approve(old(Contents()), rules, id, username, who, typed, startAnyway, env).0
      ensures ok == D.Approve(old(Contents()), rules, id, username, who, typed, startAnyway, env).1
    {
      hide D.Claim, P.DeployGroup;
      var v, filled := Claim(rules, id, username, who, typed);
      if v.Refuse? { return false; }
      ok := DeployGroup(id, Terms(who, filled, startAnyway), env);
    }

    method CheckPending(g: seq<nat>) returns (ok: bool)
      requires forall k :: 0 <= k < |g| ==> g[k] < |promotions|
      ensures ok == AllPending(promotions, g)
    {
      for k := 0 to |g|
        invariant forall a :: 0 <= a < k ==> promotions[g[a]].status == Pending
      {
        if promotions[g[k]].status != Pending { return false; }
      }
      ok := true;
    }

    method DropValues(g: seq<nat>)
      requires forall k :: 0 <= k < |g| ==> g[k] < |promotions|
      modifies this`sent
      ensures Contents() == DropAll(old(Contents()), g, |g|)
    {
      for k := 0 to |g|
        invariant Contents() == DropAll(old(Contents()), g, k)
      {
        var p := promotions[g[k]];
        if p.offer.filled != [] { sent := sent - {p.id}; }
      }
    }

    method Reject(id: string, username: string, reason: string) returns (v: Verdict)
      modifies this`promotions, this`sent
      ensures Contents() == D.Reject(old(Contents()), id, username, reason).0
      ensures v == D.Reject(old(Contents()), id, username, reason).1
    {
      hide DropAll, AllPending, Group;
      if |reason| > MAX_REASON { return Refuse(Invalid); }
      var i := IndexOf(promotions, id);
      if i < 0 { return Refuse(NotFound); }
      var g := GroupOf(i);
      var pending := CheckPending(g);
      if !pending { return Refuse(Conflict); }
      DropValues(g);
      MarkAll(g, Rejected, username);
      v := Fine;
    }

    /** The guard of Rollback, with the members it lets through. */
    method MayRollBack(i: int) returns (v: Verdict, deployed: seq<nat>)
      requires -1 <= i < |promotions|
      ensures v == RollbackVerdict(promotions, i)
      ensures v.Fine? ==> 0 <= i && deployed == DeployedOf(promotions, Group(promotions, i), |Group(promotions, i)|)
    {
      hide Group, NewerBlocks;
      deployed := [];
      if i < 0 { return Refuse(NotFound), deployed; }
      if promotions[i].status != Deployed { return Refuse(Conflict), deployed; }
      var g := GroupOf(i);
      for k := 0 to |g|
        invariant deployed == DeployedOf(promotions, g, k)
        invariant forall a :: 0 <= a < k && promotions[g[a]].status == Deployed ==> !NewerBlocks(promotions, g[a])
      {
        if promotions[g[k]].status == Deployed {
          if NewerBlocks(promotions, g[k]) { return Refuse(Conflict), deployed; }
          deployed := deployed + [g[k]];
        }
      }
      v := Fine;
    }

    /** The last loop of Rollback: newest first, up to the first error. */
    method UndoAll(ids: seq<string>, env: Env) returns (ok: bool)
      modifies this`promotions, this`workflows, this`history
      ensures Contents() == UndoUntilError(old(Contents()), ids, |ids|, env).0
      ensures ok == UndoUntilError(old(Contents()), ids, |ids|, env).1
    {
      hide P.Undo;
      var k := |ids|;
      while k > 0
        invariant 0 <= k <= |ids|
        invariant UndoUntilError(Contents(), ids, k, env) == UndoUntilError(old(Contents()), ids, |ids|, env)
      {
        ok := Undo(ids[k - 1], env);
        if !ok { return; }
        k := k - 1;
      }
      ok := true;
    }

    method Rollback(id: string, env: Env) returns (v: Verdict)
      modifies this`promotions, this`workflows, this`history
      ensures Contents() == D.Rollback(old(Contents()), id, env).0
      ensures v == D.Rollback(old(Contents()), id, env).1
    {
      hide RollbackVerdict, DeployedOf, Group, UndoUntilError;
      var i := IndexOf(promotions, id);
      var deployed;
      v, deployed := MayRollBack(i);
      if v.Refuse? { return; }
      var ids := IDsAt(promotions, deployed);
      var ok := UndoAll(ids, env);
      if !ok { v := Refuse(Invalid); }
    }

    // ------------------------------------------------------------------ receiving

    /** The loop of ReceiveRelease: every item is checked before any is stored. */
    static method AdmitItems(here: Store, peer: Peer, releaseID: string, items: seq<Submission>, ids: seq<string>)
      returns (v: Verdict, admitted: seq<Admitted>)
      requires |ids| == |items|
      ensures v == ItemsVerdict(here, peer, items, |items|)
      ensures v.Fine? ==> admitted == AdmitAll(here, peer, items, releaseID, ids)
    {
      hide AdmitVerdict, Admit;
      admitted := [];
      var seen: set<string> := {};
      for k := 0 to |items|
        invariant ItemsVerdict(here, peer, items, k).Fine?
        invariant |admitted| == k && forall a :: 0 <= a < k ==>
            admitted[a] == Admit(here, peer, items[a], releaseID, ids[a])
        invariant forall x :: x in seen <==> exists a :: 0 <= a < k && items[a].workflow.id == x
      {
        if items[k].workflow.id in seen {
          assert SentTwice(items, k);
          ItemsStop(here, peer, items, k + 1, |items|);
          return Refuse(Invalid), admitted;
        }
        seen := seen + {items[k].workflow.id};
        v := AdmitVerdict(here, peer, items[k]);
        if v.Refuse? {
          ItemsStop(here, peer, items, k + 1, |items|);
          return;
        }
        admitted := admitted + [Admit(here, peer, items[k], releaseID, ids[k])];
      }
      v := Fine;
    }

    method ReceiveRelease(rules: Rules, peer: Peer, releaseID: string, items: seq<Submission>, ids: seq<string>,
                          env: Env)
      returns (v: Verdict)
      requires |ids| == |items|
      modifies this
      ensures Contents() == A.ReceiveRelease(old(Contents()), rules, peer, releaseID, items, ids, env).0
      ensures v == A.ReceiveRelease(old(Contents()), rules, peer, releaseID, items, ids, env).1
    {
      hide ItemsVerdict, StoredRelease, AdmitAll, P.DeployGroup, PromotionsOf, BodiesOf, SentBodies;
      if !ValidReleaseID(releaseID) || items == [] || |items| > MAX_RELEASE_ITEMS { return Refuse(Invalid); }
      if StoredRelease(promotions, peer.id, releaseID) != [] { return Fine; }
      var here := Store(promotions, bodies, sent, Flows(workflows, history), Conns(sources, sinks), secrets, peers,
          backend);
      var admitted;
      v, admitted := AdmitItems(here, peer, releaseID, items, ids);
      if v.Refuse? { return; }
      promotions := promotions + PromotionsOf(admitted);
      bodies := bodies + BodiesOf(admitted, |admitted|);
      sent := sent + SentBodies(admitted, |admitted|);
      if RuleFor(rules, VHostOf(admitted[0].p.offer.vhost)) == NoApproval {
        var _ := DeployGroup(ids[0], Terms("automatic", map[], false), env);
      }
    }
  }

  // ------------------------------------------------- a loop that stops early stays so

  lemma {:induction false} FillStops(start: Secrets, id: string, vhost: string, names: seq<string>, n: nat, m: nat,
                                     values: map<string, string>, backend: Backend, env: Env)
    requires n <= m <= |names| && !FillUpTo(start, id, vhost, names, n, values, backend, env).ok
    ensures FillUpTo(start, id, vhost, names, m, values, backend, env) ==
        FillUpTo(start, id, vhost, names, n, values, backend, env)
  {
    if n < m { FillStops(start, id, vhost, names, n, m - 1, values, backend, env); }
  }

  lemma {:induction false} CreateStops(c: Conns, carried: seq<Carried>, n: nat, m: nat, vhost: string, env: Env)
    requires n <= m <= |carried| && !CreateUpTo(c, carried, n, vhost, env).1
    ensures CreateUpTo(c, carried, m, vhost, env) == CreateUpTo(c, carried, n, vhost, env)
  {
    if n < m { CreateStops(c, carried, n, m - 1, vhost, env); }
  }

  lemma {:induction false} ClaimStops(ps: seq<Promotion>, g: seq<nat>, n: nat, m: nat, rules: Rules, username: string)
    requires n <= m <= |g| && (forall k :: 0 <= k < |g| ==> g[k] < |ps|) &&
        ClaimVerdict(ps, g, n, rules, username).Refuse?
    ensures ClaimVerdict(ps, g, m, rules, username) == ClaimVerdict(ps, g, n, rules, username)
  {
    if n < m { ClaimStops(ps, g, n, m - 1, rules, username); }
  }

  lemma {:induction false} ItemsStop(st: Store, peer: Peer, items: seq<Submission>, n: nat, m: nat)
    requires n <= m <= |items| && ItemsVerdict(st, peer, items, n).Refuse?
    ensures ItemsVerdict(st, peer, items, m) == ItemsVerdict(st, peer, items, n)
  {
    hide AdmitVerdict;
    if n < m { ItemsStop(st, peer, items, n, m - 1); }
  }
}
