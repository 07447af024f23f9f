/** When a release may be approved or rejected, and what either leaves (receive.go, approve
    and Reject), in terms of the stored promotions and the rules alone. */
module DecisionOutcome {
  import opened Promotions
  import opened Decisions
  import opened ReleaseAtomicity
  import opened RollbackGuard

  /** The rule that holds for the vhost: its own, or the general one. */
  predicate Holds(rules: Rules, vhost: string, a: Approval) {
    (vhost in rules.byVHost && rules.byVHost[vhost] == a) || (vhost !in rules.byVHost && rules.approval == a)
  }

  /** The same letter, whatever its case. */
  predicate SameLetter(c: char, d: char) {
    c == d || ('A' <= c <= 'Z' && d as int == c as int + 32) || ('A' <= d <= 'Z' && c as int == d as int + 32)
  }

  predicate SameName(a: string, b: string) {
    |a| == |b| && forall i :: 0 <= i < |a| ==> SameLetter(a[i], b[i])
  }

  /** username may approve p: it waits, and it is not theirs where the vhost's rule forbids that. */
  predicate MayApprove(p: Promotion, rules: Rules, username: string) {
    && p.status == Pending
    && !(Holds(rules, if p.offer.vhost == "" then "default" else p.offer.vhost, ExceptSender) &&
         SameName(p.offer.sender, username))
  }

  /** Every value typed is for a secret that some member needs, and can be stored. */
  ghost predicate MayType(st: Store, i: nat, typed: map<string, string>)
    requires i < |st.ps|
  {
    forall name :: name in typed && typed[name] != "" ==>
      st.backend.Writable? && exists j :: 0 <= j < |st.ps| && Together(st.ps, i, j) && name in st.ps[j].offer.secrets
  }

  /** Every member of ps[i]'s release has the status and who decided; the others are unchanged. */
  ghost predicate Marked(ps: seq<Promotion>, qs: seq<Promotion>, i: nat, status: Status, who: string)
    requires i < |ps|
  {
    |qs| == |ps| && forall j :: 0 <= j < |ps| ==>
      qs[j] == if Together(ps, i, j) then ps[j].(status := status, decidedBy := who) else ps[j]
  }

  lemma NameIs(a: string, b: string)
    ensures EqualFold(a, b) <==> SameName(a, b)
  {
  }

  lemma MemberFineIff(p: Promotion, rules: Rules, username: string)
    ensures MemberVerdict(p, rules, username).Fine? <==> MayApprove(p, rules, username)
  {
    NameIs(p.offer.sender, username);
    hide EqualFold, SameName;
  }

  lemma MarkIs(ps: seq<Promotion>, i: nat, status: Status, who: string)
    requires i < |ps|
    ensures Marked(ps, Mark(ps, Group(ps, i), status, who), i, status, who)
  {
    GroupIs(ps, i);
    hide Group;
  }

  lemma TypedIff(st: Store, i: nat, typed: map<string, string>)
    requires i < |st.ps|
    ensures ValuesAccepted(st, Group(st.ps, i), typed) <==> MayType(st, i, typed)
  {
    GroupIs(st.ps, i);
    hide Group;
    var g := Group(st.ps, i);
    if MayType(st, i, typed) {
      forall name | name in NonBlank(typed) ensures exists k :: 0 <= k < |g| && name in st.ps[g[k]].offer.secrets {
        var j :| 0 <= j < |st.ps| && Together(st.ps, i, j) && name in st.ps[j].offer.secrets;
        assert j in g;
      }
    }
    if ValuesAccepted(st, g, typed) {
      forall name | name in typed && typed[name] != ""
        ensures st.backend.Writable? &&
          exists j :: 0 <= j < |st.ps| && Together(st.ps, i, j) && name in st.ps[j].offer.secrets
      {
        assert name in NonBlank(typed);
        var k :| 0 <= k < |g| && name in st.ps[g[k]].offer.secrets;
        assert g[k] in g;
      }
    }
  }

  /** What holds of every member of the list holds of the whole release. */
  lemma ForGroup(ps: seq<Promotion>, i: nat, f: Promotion -> bool)
    requires i < |ps|
    ensures var g := Group(ps, i);
      (forall k :: 0 <= k < |g| ==> f(ps[g[k]])) <==> (forall j :: 0 <= j < |ps| && Together(ps, i, j) ==> f(ps[j]))
  {
    GroupIs(ps, i);
    hide Group, Together;
    var g := Group(ps, i);
    assert forall k :: 0 <= k < |g| ==> g[k] in g;
    forall j | 0 <= j < |ps| && Together(ps, i, j) ensures exists k :: 0 <= k < |g| && g[k] == j {
      assert j in g;
    }
  }

  /** Every member may be approved by that user. */
  ghost predicate AllMayApprove(ps: seq<Promotion>, i: nat, rules: Rules, username: string)
    requires i < |ps|
  {
    forall j :: 0 <= j < |ps| && Together(ps, i, j) ==> MayApprove(ps[j], rules, username)
  }

  lemma ClaimFineIff(ps: seq<Promotion>, i: nat, rules: Rules, username: string)
    requires i < |ps|
    ensures ClaimVerdict(ps, Group(ps, i), |Group(ps, i)|, rules, username).Fine? <==>
            AllMayApprove(ps, i, rules, username)
  {
    hide Group, MemberVerdict, MayApprove, Together;
    ForGroup(ps, i, (p: Promotion) => MemberVerdict(p, rules, username).Fine?);
    forall j | 0 <= j < |ps|
      ensures MemberVerdict(ps[j], rules, username).Fine? <==> MayApprove(ps[j], rules, username)
    {
      MemberFineIff(ps[j], rules, username);
    }
  }

  /** A release is claimed exactly when every member may be approved by that user and the values
      typed may be; then all of it is being deployed in their name, and nothing else changed. */
  lemma ClaimEndsIff(st: Store, i: nat, rules: Rules, username: string, who: string, typed: map<string, string>)
    requires UniqueIDs(st.ps) && i < |st.ps|
    ensures var (s, v) := Claim(st, rules, st.ps[i].id, username, who, typed);
      && (v.Fine? <==> AllMayApprove(st.ps, i, rules, username) && MayType(st, i, typed))
      && (v.Fine? ==> s == st.(ps := s.ps) && Marked(st.ps, s.ps, i, Deploying, who))
      && (v.Refuse? ==> s == st)
  {
    IndexOfUnique(st.ps, i);
    MarkIs(st.ps, i, Deploying, who);
    TypedIff(st, i, typed);
    ClaimFineIff(st.ps, i, rules, username);
    hide Group, ClaimVerdict, ValuesAccepted, MayType, AllMayApprove, Marked, Mark;
  }

  /** Nobody decides a promotion that is not here. */
  lemma UnknownRefused(st: Store, id: string, rules: Rules, username: string, who: string, typed: map<string, string>,
                       reason: string, env: Env)
    requires forall j :: 0 <= j < |st.ps| ==> st.ps[j].id != id
    ensures Claim(st, rules, id, username, who, typed) == (st, Refuse(NotFound))
    ensures |reason| <= 1000 ==> Reject(st, id, username, reason) == (st, Refuse(NotFound))
    ensures Rollback(st, id, env) == (st, Refuse(NotFound))
  {
  }

  lemma {:induction false} DropsAll(st: Store, g: seq<nat>, n: nat)
    requires n <= |g| && forall k :: 0 <= k < |g| ==> g[k] < |st.ps|
    ensures forall id :: id in DropAll(st, g, n).sent ==> id in st.sent && DropAll(st, g, n).sent[id] == st.sent[id]
    ensures forall id :: id in st.sent && id !in DropAll(st, g, n).sent <==>
      id in st.sent && exists k :: 0 <= k < n && st.ps[g[k]].id == id && st.ps[g[k]].offer.filled != []
  {
    if n > 0 { DropsAll(st, g, n - 1); }
  }

  /** The values sent with the members of ps[i]'s release are gone, and no others. */
  ghost predicate SentDropped(st: Store, sent: map<string, map<string, string>>, i: nat)
    requires i < |st.ps|
  {
    forall id ::
      && (id in sent ==> id in st.sent && sent[id] == st.sent[id])
      && (id in st.sent ==> (id !in sent <==> DropsFrom(st, i, id)))
  }

  /** A member of the release has this id, and values were sent with it. */
  ghost predicate DropsFrom(st: Store, i: nat, id: string)
    requires i < |st.ps|
  {
    exists j :: 0 <= j < |st.ps| && Together(st.ps, i, j) && st.ps[j].id == id && st.ps[j].offer.filled != []
  }

  lemma GroupDrops(st: Store, i: nat)
    requires i < |st.ps|
    ensures SentDropped(st, DropAll(st, Group(st.ps, i), |Group(st.ps, i)|).sent, i)
  {
    GroupIs(st.ps, i);
    hide Group, DropAll, Together;
    var g := Group(st.ps, i);
    DropsAll(st, g, |g|);
    forall id
      ensures DropsFrom(st, i, id) <==>
        exists k :: 0 <= k < |g| && st.ps[g[k]].id == id && st.ps[g[k]].offer.filled != []
    {
      if DropsFrom(st, i, id) {
        var j :| 0 <= j < |st.ps| && Together(st.ps, i, j) && st.ps[j].id == id && st.ps[j].offer.filled != [];
        assert j in g;
      }
      assert forall k :: 0 <= k < |g| ==> g[k] in g;
    }
  }

  /** Every member waits. */
  ghost predicate AllWait(ps: seq<Promotion>, i: nat)
    requires i < |ps|
  {
    forall j :: 0 <= j < |ps| && Together(ps, i, j) ==> ps[j].status == Pending
  }

  /** A release is rejected exactly when all of it waits and the reason is not too long. */
  lemma RejectEndsIff(st: Store, i: nat, username: string, reason: string)
    requires UniqueIDs(st.ps) && i < |st.ps|
    ensures var (s, v) := Reject(st, st.ps[i].id, username, reason);
      && (v.Fine? <==> |reason| <= 1000 && AllWait(st.ps, i))
      && (v.Fine? ==> s == st.(ps := s.ps, sent := s.sent) && Marked(st.ps, s.ps, i, Rejected, username) &&
                      SentDropped(st, s.sent, i))
      && (v.Refuse? ==> s == st)
  {
    IndexOfUnique(st.ps, i);
    MarkIs(st.ps, i, Rejected, username);
    GroupDrops(st, i);
    ForGroup(st.ps, i, (p: Promotion) => p.status == Pending);
    hide Group, Marked, DropAll, Together, Mark, SentDropped;
    var g := Group(st.ps, i);
    assert AllPending(st.ps, g) <==> AllWait(st.ps, i);
    hide AllPending, AllWait;
  }
}
