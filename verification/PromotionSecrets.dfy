/** The secrets a deploy fills in (internal/environment/secrets_sync.go). */
module PromotionSecrets {
  import opened Sequences
  import opened Workflows
  import opened Promotions

  /** What becomes of a name: whether it is created, and whether it stays missing. */
  predicate IsCreated(start: Secrets, key: (string, string), values: map<string, string>, backend: Backend, env: Env) {
    key !in start && key.1 in values && backend.Writable? && key !in env.raced
  }

  predicate IsMissing(start: Secrets, key: (string, string), values: map<string, string>, backend: Backend) {
    key !in start && (key.1 !in values || !backend.Writable?)
  }

  /** Each of names[..n] is reported once, as what became of it. */
  ghost predicate ReportRight(r: SecretsReport, start: Secrets, vhost: string, names: seq<string>, n: nat,
                              values: map<string, string>, backend: Backend, env: Env)
    requires n <= |names|
  {
    && (forall x :: x in r.created <==> x in names[..n] && IsCreated(start, (vhost, x), values, backend, env))
    && (forall x :: x in r.missing <==> x in names[..n] && IsMissing(start, (vhost, x), values, backend))
    && (forall x :: x in r.kept <==> x in names[..n] && !IsCreated(start, (vhost, x), values, backend, env)
                                     && !IsMissing(start, (vhost, x), values, backend))
  }

  /** The secrets after names[..n]: what was there, the created ones, and the ones
      someone else set meanwhile. */
  ghost predicate StoreRight(s: Secrets, start: Secrets, vhost: string, names: seq<string>, n: nat,
                             values: map<string, string>, backend: Backend, env: Env)
    requires n <= |names|
  {
    && (forall k :: k in s <==>
        k in start || (k.0 == vhost && k.1 in names[..n] && !IsMissing(start, k, values, backend)))
    && (forall k :: k in s ==>
          s[k] == if k in start then start[k] else if k in env.raced then env.raced[k] else if k.1 in values
              then values[k.1] else "")
  }

  lemma FillOneStore(f: Filled, start: Secrets, id: string, vhost: string, names: seq<string>, n: nat,
                     values: map<string, string>, backend: Backend, env: Env)
    requires n < |names| && names[n] !in names[..n] && names[..n + 1] == names[..n] + [names[n]]
    requires StoreRight(f.secrets, start, vhost, names, n, values, backend, env)
    requires FillOne(f, id, vhost, names[n], values, backend, env).ok
    ensures StoreRight(FillOne(f, id, vhost, names[n], values, backend, env).secrets, start, vhost, names, n + 1,
        values, backend, env)
    ensures (vhost, names[n]) in f.secrets <==> (vhost, names[n]) in start
  {
    assert (vhost, names[n]) in f.secrets <==> (vhost, names[n]) in start;
    var t := FillOne(f, id, vhost, names[n], values, backend, env).secrets;
    assert forall x :: x in names[..n + 1] <==> x in names[..n] || x == names[n];
    assert forall k :: k != (vhost, names[n]) ==>
        (k in t <==> k in f.secrets) && (k in f.secrets ==> t[k] == f.secrets[k]);
  }

  lemma FillOneReport(f: Filled, start: Secrets, id: string, vhost: string, names: seq<string>, n: nat,
                      values: map<string, string>, backend: Backend, env: Env)
    requires n < |names| && names[n] !in names[..n] && names[..n + 1] == names[..n] + [names[n]]
    requires ReportRight(f.report, start, vhost, names, n, values, backend, env)
    requires (vhost, names[n]) in f.secrets <==> (vhost, names[n]) in start
    requires FillOne(f, id, vhost, names[n], values, backend, env).ok
    ensures ReportRight(FillOne(f, id, vhost, names[n], values, backend, env).report, start, vhost, names, n + 1,
        values, backend, env)
  {
  }

  lemma {:induction false} FillUpToRight(start: Secrets, id: string, vhost: string, names: seq<string>, n: nat,
                                         values: map<string, string>, backend: Backend, env: Env)
    requires n <= |names| && Distinct(names)
    requires FillUpTo(start, id, vhost, names, n, values, backend, env).ok
    ensures var f := FillUpTo(start, id, vhost, names, n, values, backend, env);
      && StoreRight(f.secrets, start, vhost, names, n, values, backend, env)
      && ReportRight(f.report, start, vhost, names, n, values, backend, env)
      && multiset(f.report.created) + multiset(f.report.kept) + multiset(f.report.missing) == multiset(names[..n])
  {
    if n > 0 {
      FillUpToRight(start, id, vhost, names, n - 1, values, backend, env);
      var f := FillUpTo(start, id, vhost, names, n - 1, values, backend, env);
      assert names[..n] == names[..n - 1] + [names[n - 1]];
      assert names[n - 1] !in names[..n - 1];
      FillOneStore(f, start, id, vhost, names, n - 1, values, backend, env);
      FillOneReport(f, start, id, vhost, names, n - 1, values, backend, env);
    }
  }

  /** Deploying secrets, when it succeeds: the needed names are split into created, kept
      and missing; no secret the vhost had changes; a created one has the approver's
      value if typed and otherwise the sender's; no other name appears, except what
      someone else set meanwhile; and the sender's values are forgotten. */
  lemma DeploySecretsPartition(st: Store, p: Promotion, approver: map<string, string>, env: Env)
    requires Distinct(p.offer.secrets) && !st.backend.NoSecrets?
    requires DeploySecrets(st, p, approver, env).1.ok
    ensures var (s, f) := DeploySecrets(st, p, approver, env);
      var r, vhost := f.report, VHostOf(p.offer.vhost);
      && s.secrets == f.secrets
      && multiset(r.created) + multiset(r.kept) + multiset(r.missing) == multiset(p.offer.secrets)
      && (forall x :: x in r.created ==> x !in r.kept && x !in r.missing)
      && (forall x :: x in r.kept ==> x !in r.missing)
      && (forall k :: k in st.secrets ==> k in s.secrets && s.secrets[k] == st.secrets[k])
      && (forall x :: x in r.created ==>
            && (vhost, x) !in st.secrets && (vhost, x) in s.secrets
            && (if x in approver then s.secrets[(vhost, x)] == approver[x]
                else x in SentOf(st, p.id) && s.secrets[(vhost, x)] == SentOf(st, p.id)[x]))
      && (forall x :: x in r.kept ==> (vhost, x) in s.secrets)
      && (forall x :: x in r.missing ==> (vhost, x) !in s.secrets)
      && (forall k :: k in s.secrets && k !in st.secrets ==>
          k.0 == vhost && (k.1 in r.created || (k.1 in r.kept && k in env.raced)))
      && (p.offer.filled != [] ==> p.id !in s.sent)
  {
    var (s, f) := DeploySecrets(st, p, approver, env);
    var names, vhost := p.offer.secrets, VHostOf(p.offer.vhost);
    var values := ValuesToCreate(st, p, approver);
    if names != [] {
      FillUpToRight(st.secrets, p.id, vhost, names, |names|, values, st.backend, env);
      assert names[..|names|] == names;
      assert f == FillUpTo(st.secrets, p.id, vhost, names, |names|, values, st.backend, env);
    }
  }

  /** A failed deploy of secrets still never changes or removes one that was there. */
  lemma {:induction false} FillNeverOverwrites(start: Secrets, id: string, vhost: string, names: seq<string>, n: nat,
                                               values: map<string, string>, backend: Backend, env: Env)
    requires n <= |names|
    ensures var f := FillUpTo(start, id, vhost, names, n, values, backend, env);
      forall k :: k in start ==> k in f.secrets && f.secrets[k] == start[k]
  {
    if n > 0 { FillNeverOverwrites(start, id, vhost, names, n - 1, values, backend, env); }
  }
}
