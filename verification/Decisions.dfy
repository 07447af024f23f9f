/** What an administrator decides about stored promotions: approve, reject and roll
    back (receive.go), as functions of the store. */
module Decisions {
  import opened Workflows
  import opened Promotions

  datatype Approval = ExceptSender | AnyAdmin | NoApproval

  datatype Rules = Rules(approval: Approval, byVHost: map<string, Approval>)

  function RuleFor(rules: Rules, vhost: string): Approval {
    if vhost in rules.byVHost then rules.byVHost[vhost] else rules.approval
  }

  datatype Refusal = NotFound | Conflict | Forbidden | Invalid

  datatype Verdict = Fine | Refuse(why: Refusal)

  function FoldChar(c: char): char {
    if 'A' <= c <= 'Z' then c - 'A' + 'a' else c
  }

  /** Whether two names are the same whatever their case. */
  predicate EqualFold(a: string, b: string) {
    |a| == |b| && forall i :: 0 <= i < |a| ==> FoldChar(a[i]) == FoldChar(b[i])
  }

  // -------------------------------------------------------------------- claims

  /** Whether username sent p and so may not approve it. */
  predicate SentBy(p: Promotion, rules: Rules, username: string) {
    RuleFor(rules, VHostOf(p.offer.vhost)) == ExceptSender && EqualFold(p.offer.sender, username)
  }

  function MemberVerdict(p: Promotion, rules: Rules, username: string): Verdict {
    if p.status != Pending then Refuse(Conflict)
    else if SentBy(p, rules, username) then Refuse(Forbidden)
    else Fine
  }

  /** The verdict of approve's loop over the first n members: the first refusal. */
  function ClaimVerdict(ps: seq<Promotion>, g: seq<nat>, n: nat, rules: Rules, username: string): (v: Verdict)
    requires n <= |g| && forall k :: 0 <= k < |g| ==> g[k] < |ps|
    ensures v.Fine? <==> forall k :: 0 <= k < n ==> MemberVerdict(ps[g[k]], rules, username).Fine?
  {
    if n == 0 then Fine else
      var v := ClaimVerdict(ps, g, n - 1, rules, username);
      if v.Refuse? then v else MemberVerdict(ps[g[n - 1]], rules, username)
  }

  function NonBlank(values: map<string, string>): map<string, string> {
    map k | k in values && values[k] != "" :: values[k]
  }

  /** filledSecrets: a value may be typed only for a secret a member needs, and only
      where the instance can store it. */
  predicate ValuesAccepted(st: Store, g: seq<nat>, typed: map<string, string>)
    requires forall k :: 0 <= k < |g| ==> g[k] < |st.ps|
  {
    NonBlank(typed) == map[] ||
    (st.backend.Writable? &&
     forall name :: name in NonBlank(typed) ==> exists k :: 0 <= k < |g| && name in st.ps[g[k]].offer.secrets)
  }

  /** Every member of g gets the status and who decided. */
  function Mark(ps: seq<Promotion>, g: seq<nat>, status: Status, who: string): (r: seq<Promotion>)
    ensures |r| == |ps|
    ensures forall j :: 0 <= j < |ps| ==> r[j] == if j in g then ps[j].(status := status, decidedBy := who) else ps[j]
  {
    seq(|ps|, j requires 0 <= j < |ps| => if j in g then ps[j].(status := status, decidedBy := who) else ps[j])
  }

  /** The critical section of approve: the release is claimed whole, or refused whole. */
  function Claim(st: Store, rules: Rules, id: string, username: string, who: string, typed: map<string,
                 string>): (Store, Verdict) {
    var i := IndexOf(st.ps, id);
    if i < 0 then (st, Refuse(NotFound)) else
      var g := Group(st.ps, i);
      var v := ClaimVerdict(st.ps, g, |g|, rules, username);
      if v.Refuse? then (st, v)
      else if !ValuesAccepted(st, g, typed) then (st, Refuse(Invalid))
      else (st.(ps := Mark(st.ps, g, Deploying, who)), Fine)
  }

  /** approve: the claim, then deployGroup with the values typed. */
  function Approve(st: Store, rules: Rules, id: string, username: string, who: string,
                   typed: map<string, string>, startAnyway: bool, env: Env): (Store, bool) {
    var (s, v) := Claim(st, rules, id, username, who, typed);
    if v.Refuse? then (s, false) else DeployGroup(s, id, Terms(who, NonBlank(typed), startAnyway), env)
  }

  // ------------------------------------------------------------------ rejecting

  const MAX_REASON := 1000

  predicate AllPending(ps: seq<Promotion>, g: seq<nat>)
    requires forall k :: 0 <= k < |g| ==> g[k] < |ps|
  {
    forall k :: 0 <= k < |g| ==> ps[g[k]].status == Pending
  }

  /** The sender's values of the members of g are forgotten. */
  function DropAll(st: Store, g: seq<nat>, n: nat): (r: Store)
    requires n <= |g| && forall k :: 0 <= k < |g| ==> g[k] < |st.ps|
    ensures r == st.(sent := r.sent)
  {
    if n == 0 then st else
      var r := DropAll(st, g, n - 1);
      DropSent(r, st.ps[g[n - 1]])
  }

  function Reject(st: Store, id: string, username: string, reason: string): (Store, Verdict) {
    if |reason| > MAX_REASON then (st, Refuse(Invalid)) else
      var i := IndexOf(st.ps, id);
      if i < 0 then (st, Refuse(NotFound)) else
        var g := Group(st.ps, i);
        if !AllPending(st.ps, g) then (st, Refuse(Conflict))
        else (DropAll(st, g, |g|).(ps := Mark(st.ps, g, Rejected, username)), Fine)
  }

  // --------------------------------------------------------------- rolling back

  /** q is a deployed promotion of p's workflow that the rollback guard counts. */
  predicate Blocks(p: Promotion, q: Promotion) {
    && q.offer.workflowID == p.offer.workflowID && q.status == Deployed
    && (q.offer.releaseID == "" || q.offer.releaseID != p.offer.releaseID)
  }

  predicate NewerBlocks(ps: seq<Promotion>, j: nat)
    requires j < |ps|
  {
    exists q :: j < q < |ps| && Blocks(ps[j], ps[q])
  }

  /** The members of g[..n] a rollback undoes: the deployed ones. */
  function DeployedOf(ps: seq<Promotion>, g: seq<nat>, n: nat): (d: seq<nat>)
    requires n <= |g| && forall k :: 0 <= k < |g| ==> g[k] < |ps|
    ensures forall a :: 0 <= a < |d| ==> d[a] in g && d[a] < |ps| && ps[d[a]].status == Deployed
    ensures forall k :: 0 <= k < n && ps[g[k]].status == Deployed ==> g[k] in d
    ensures (forall a, b :: 0 <= a < b < |g| ==> g[a] < g[b]) ==>
      && (forall a :: 0 <= a < |d| ==> n > 0 && d[a] <= g[n - 1])
      && (forall a, b :: 0 <= a < b < |d| ==> d[a] < d[b])
  {
    if n == 0 then []
    else if ps[g[n - 1]].status == Deployed then DeployedOf(ps, g, n - 1) + [g[n - 1]]
    else DeployedOf(ps, g, n - 1)
  }

  /** Why a rollback of ps[i] is refused, if it is. */
  function RollbackVerdict(ps: seq<Promotion>, i: int): (v: Verdict)
    requires -1 <= i < |ps|
  {
    if i < 0 then Refuse(NotFound)
    else if ps[i].status != Deployed then Refuse(Conflict)
    else if (var g := Group(ps, i); exists k :: 0 <= k < |g| && ps[g[k]].status == Deployed && NewerBlocks(ps, g[k]))
    then Refuse(Conflict)
    else Fine
  }

  /** Rollback's last loop: ids[..k] undone newest first, up to the first error. */
  function UndoUntilError(st: Store, ids: seq<string>, k: nat, env: Env): (Store, bool)
    requires k <= |ids|
    decreases k
  {
    if k == 0 then (st, true) else
      var (s, ok) := Undo(st, ids[k - 1], env);
      if ok then UndoUntilError(s, ids, k - 1, env) else (s, false)
  }

  function Rollback(st: Store, id: string, env: Env): (Store, Verdict) {
    var i := IndexOf(st.ps, id);
    var v := RollbackVerdict(st.ps, i);
    if v.Refuse? then (st, v) else
      var g := Group(st.ps, i);
      var ids := IDsAt(st.ps, DeployedOf(st.ps, g, |g|));
      var (s, ok) := UndoUntilError(st, ids, |ids|, env);
      (s, if ok then Fine else Refuse(Invalid))
  }
}
