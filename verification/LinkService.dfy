/** The sending side of a connection: one link per vhost, each with its token kept apart
    (internal/environment/link.go and connection.go). Calls to the other instance happen
    outside the lock; what comes back arrives here as arguments, so any interleaving of
    the operations is a run of the critical sections below. */
module LinkService {
  import opened Sequences

  /** `note` stands for what a check of the link records and changes nothing else. */
  datatype Link = Link(id: string, vhost: string, target: string, pending: bool, via: string, note: string)

  datatype Send = Send(links: seq<Link>, tokens: map<string, string>)

  datatype Reply = Failed | Answered(token: string)

  function LinkAt(links: seq<Link>, id: string): (i: int)
    ensures -1 <= i < |links|
    ensures i >= 0 ==> links[i].id == id
    ensures i < 0 ==> forall j :: 0 <= j < |links| ==> links[j].id != id
  {
    if links == [] then -1 else if links[0].id == id then 0 else
      var i := LinkAt(links[1..], id);
      if i < 0 then -1 else i + 1
  }

  function VHostAt(links: seq<Link>, vhost: string): (i: int)
    ensures -1 <= i < |links|
    ensures i >= 0 ==> links[i].vhost == vhost && forall j :: 0 <= j < i ==> links[j].vhost != vhost
    ensures i < 0 ==> forall j :: 0 <= j < |links| ==> links[j].vhost != vhost
  {
    if links == [] then -1 else if links[0].vhost == vhost then 0 else
      var i := VHostAt(links[1..], vhost);
      if i < 0 then -1 else i + 1
  }

  /** linkFor: the vhost's own link, else one made before links were per vhost. */
  function LinkFor(links: seq<Link>, vhost: string): int {
    if VHostAt(links, vhost) >= 0 then VHostAt(links, vhost) else VHostAt(links, "")
  }

  /** saveLinkToken: an empty token removes the link's. */
  function SaveToken(tokens: map<string, string>, id: string, token: string): map<string, string> {
    if token == "" then tokens - {id} else tokens[id := token]
  }

  function LinksWithout(links: seq<Link>, id: string): (r: seq<Link>)
    ensures forall l :: l in r <==> l in links && l.id != id
  {
    if links == [] then [] else
      var front, last := links[..|links| - 1], links[|links| - 1];
      assert links == front + [last];
      var r := LinksWithout(front, id);
      if last.id == id then r else r + [last]
  }

  // ------------------------------------------------------------ critical sections

  /** LinkWith after the pairing: linking a vhost again replaces its link. */
  function LinkWith(s: Send, l: Link, token: string): Send {
    var i := VHostAt(s.links, l.vhost);
    var tokens := if i >= 0 then SaveToken(s.tokens, s.links[i].id, "") else s.tokens;
    var links := if i >= 0 then Without(s.links, i) else s.links;
    Send(links + [l], SaveToken(tokens, l.id, token))
  }

  /** keepLink: unless a link for the same vhost was saved meanwhile. */
  function KeepLink(s: Send, l: Link, token: string): (Send, bool) {
    if VHostAt(s.links, l.vhost) >= 0 then (s, false)
    else (Send(s.links + [l], if token != "" then SaveToken(s.tokens, l.id, token) else s.tokens), true)
  }

  /** askAgain after the call: the token once allowed, a note otherwise. */
  function AskAgain(s: Send, id: string, reply: Reply, note: string): (Send, bool) {
    var i := LinkAt(s.links, id);
    if i < 0 then (s, false)
    else if reply.Failed? || reply.token == "" then (s.(links := s.links[i := s.links[i].(note := note)]), false)
    else (Send(s.links[i := s.links[i].(pending := false, note := "")], SaveToken(s.tokens, id, reply.token)), true)
  }

  function Unlink(s: Send, id: string): Send {
    Send(LinksWithout(s.links, id), SaveToken(s.tokens, id, ""))
  }

  // -------------------------------------------------------------------- invariant

  /** Each vhost has at most one link. */
  ghost predicate OnePerVHost(links: seq<Link>) {
    forall i, j :: 0 <= i < j < |links| ==> links[i].id != links[j].id && links[i].vhost != links[j].vhost
  }

  /** A link holds a token exactly when it is not pending, and no token has no link. */
  ghost predicate Matched(links: seq<Link>, tokens: map<string, string>) {
    && (forall i :: 0 <= i < |links| ==> (links[i].id in tokens <==> !links[i].pending))
    && (forall id :: id in tokens ==> Owned(links, id))
  }

  ghost predicate Owned(links: seq<Link>, id: string) {
    exists i :: 0 <= i < |links| && links[i].id == id
  }

  ghost predicate Inv(s: Send) {
    OnePerVHost(s.links) && Matched(s.links, s.tokens)
  }

  datatype Action =
    | Linked(l: Link, token: string)
    | Kept(l: Link, token: string)
    | Asked(id: string, reply: Reply, note: string)
    | Unlinked(id: string)
    | Checked(id: string, note: string)

  /** IDs are fresh; a link that was paired has a token; one that was added waits exactly
      when the other instance gave none. */
  ghost predicate Enabled(s: Send, a: Action) {
    match a
    case Linked(l, token) => LinkAt(s.links, l.id) < 0 && l.id !in s.tokens && token != "" && !l.pending
    case Kept(l, token) => LinkAt(s.links, l.id) < 0 && l.id !in s.tokens && (l.pending <==> token == "")
    case _ => true
  }

  function Step(s: Send, a: Action): Send {
    match a
    case Linked(l, token) => LinkWith(s, l, token)
    case Kept(l, token) => KeepLink(s, l, token).0
    case Asked(id, reply, note) => AskAgain(s, id, reply, note).0
    case Unlinked(id) => Unlink(s, id)
    case Checked(id, note) =>
      var i := LinkAt(s.links, id);
      if i < 0 then s else s.(links := s.links[i := s.links[i].(note := note)])
  }

  lemma LinkAtUnique(links: seq<Link>, i: nat)
    requires OnePerVHost(links) && i < |links|
    ensures LinkAt(links, links[i].id) == i && VHostAt(links, links[i].vhost) == i
  {
  }

  lemma DropKeepsOne(links: seq<Link>, i: nat)
    requires OnePerVHost(links) && i < |links|
    ensures OnePerVHost(Without(links, i))
    ensures forall k :: 0 <= k < |Without(links, i)| ==>
        Without(links, i)[k].vhost != links[i].vhost && Without(links, i)[k].id != links[i].id
  {
    var rest := Without(links, i);
    forall a, b | 0 <= a < b < |rest| ensures rest[a].id != rest[b].id && rest[a].vhost != rest[b].vhost {
      var a', b' := if a < i then a else a + 1, if b < i then b else b + 1;
      assert links[a'].id != links[b'].id && links[a'].vhost != links[b'].vhost;
    }
  }

  lemma DropOwned(links: seq<Link>, i: nat, id: string)
    requires Owned(links, id) && i < |links| && id != links[i].id
    ensures Owned(Without(links, i), id)
  {
    var j :| 0 <= j < |links| && links[j].id == id;
    assert Without(links, i)[if j < i then j else j - 1] == links[j];
  }

  lemma DropOne(links: seq<Link>, tokens: map<string, string>, i: nat)
    requires OnePerVHost(links) && Matched(links, tokens) && i < |links|
    ensures OnePerVHost(Without(links, i)) && Matched(Without(links, i), tokens - {links[i].id})
    ensures forall k :: 0 <= k < |Without(links, i)| ==>
        Without(links, i)[k].vhost != links[i].vhost && Without(links, i)[k].id != links[i].id
  {
    DropKeepsOne(links, i);
    hide OnePerVHost, Owned;
    var rest := Without(links, i);
    forall id | id in tokens - {links[i].id} ensures Owned(rest, id) {
      DropOwned(links, i, id);
    }
  }

  lemma AddOne(links: seq<Link>, tokens: map<string, string>, l: Link, token: string)
    requires OnePerVHost(links) && Matched(links, tokens) && (l.pending <==> token == "")
    requires l.id !in tokens && forall k :: 0 <= k < |links| ==> links[k].vhost != l.vhost && links[k].id != l.id
    ensures OnePerVHost(links + [l])
    ensures Matched(links + [l], if token == "" then tokens else tokens[l.id := token])
  {
    var all := links + [l];
    assert all[|links|] == l;
    forall id | id in tokens ensures Owned(all, id) {
      var j :| 0 <= j < |links| && links[j].id == id;
      assert all[j].id == id;
    }
  }

  lemma LinkSafe(s: Send, l: Link, token: string)
    requires Inv(s) && Enabled(s, Linked(l, token))
    ensures Inv(LinkWith(s, l, token))
  {
    var i := VHostAt(s.links, l.vhost);
    if i >= 0 {
      DropOne(s.links, s.tokens, i);
      AddOne(Without(s.links, i), s.tokens - {s.links[i].id}, l, token);
    } else {
      AddOne(s.links, s.tokens, l, token);
    }
  }

  lemma KeepSafe(s: Send, l: Link, token: string)
    requires Inv(s) && Enabled(s, Kept(l, token))
    ensures Inv(KeepLink(s, l, token).0)
  {
    var after := KeepLink(s, l, token).0;
    if VHostAt(s.links, l.vhost) < 0 { AddOne(s.links, s.tokens, l, token); }
  }

  lemma EditSafe(s: Send, i: nat, l: Link, token: string)
    requires Inv(s) && i < |s.links| && l.id == s.links[i].id && l.vhost == s.links[i].vhost
    requires if token == "" then l.pending == s.links[i].pending else !l.pending
    ensures Inv(Send(s.links[i := l], if token == "" then s.tokens else s.tokens[l.id := token]))
  {
    var links := s.links[i := l];
    var tokens := if token == "" then s.tokens else s.tokens[l.id := token];
    assert forall k :: 0 <= k < |links| ==> links[k].id == s.links[k].id && links[k].vhost == s.links[k].vhost;
    assert OnePerVHost(links);
    forall id | id in tokens ensures Owned(links, id) {
      if id == l.id { assert links[i].id == id; } else {
        assert Owned(s.links, id);
        var k :| 0 <= k < |s.links| && s.links[k].id == id;
        assert links[k].id == id;
      }
    }
  }

  lemma {:induction false} WithoutID(links: seq<Link>, id: string)
    requires OnePerVHost(links)
    ensures OnePerVHost(LinksWithout(links, id))
  {
    if links != [] {
      var front, last := links[..|links| - 1], links[|links| - 1];
      WithoutID(front, id);
      var r := LinksWithout(front, id);
      forall k | 0 <= k < |r| ensures r[k].id != last.id && r[k].vhost != last.vhost {
        assert r[k] in r && r[k] in front;
        var j :| 0 <= j < |front| && front[j] == r[k];
        assert links[j] == r[k];
      }
    }
  }

  lemma StaysFrom(links: seq<Link>, id: string, k: nat) returns (j: nat)
    requires k < |LinksWithout(links, id)|
    ensures j < |links| && links[j] == LinksWithout(links, id)[k] && links[j].id != id
  {
    var l := LinksWithout(links, id)[k];
    assert l in LinksWithout(links, id);
    j :| 0 <= j < |links| && links[j] == l;
  }

  lemma StaysThere(links: seq<Link>, id: string, j: nat) returns (k: nat)
    requires j < |links| && links[j].id != id
    ensures k < |LinksWithout(links, id)| && LinksWithout(links, id)[k] == links[j]
  {
    assert links[j] in LinksWithout(links, id);
    k :| 0 <= k < |LinksWithout(links, id)| && LinksWithout(links, id)[k] == links[j];
  }

  lemma UnlinkTokens(s: Send, id: string, k: nat)
    requires Inv(s) && k < |LinksWithout(s.links, id)|
    ensures LinksWithout(s.links, id)[k].id in s.tokens - {id} <==> !LinksWithout(s.links, id)[k].pending
  {
    var j := StaysFrom(s.links, id, k);
    hide LinksWithout, OnePerVHost;
  }

  lemma UnlinkOwned(s: Send, id: string, x: string)
    requires Inv(s) && x in s.tokens - {id}
    ensures Owned(LinksWithout(s.links, id), x)
  {
    assert Owned(s.links, x);
    var j :| 0 <= j < |s.links| && s.links[j].id == x;
    var k := StaysThere(s.links, id, j);
    hide LinksWithout, OnePerVHost;
  }

  lemma UnlinkSafe(s: Send, id: string)
    requires Inv(s)
    ensures Inv(Unlink(s, id))
  {
    WithoutID(s.links, id);
    var links, tokens := LinksWithout(s.links, id), s.tokens - {id};
    forall k | 0 <= k < |links| ensures links[k].id in tokens <==> !links[k].pending {
      UnlinkTokens(s, id, k);
    }
    forall x | x in tokens ensures Owned(links, x) {
      UnlinkOwned(s, id, x);
    }
    hide LinksWithout, OnePerVHost, Owned;
  }

  lemma StepSafe(s: Send, a: Action)
    requires Inv(s) && Enabled(s, a)
    ensures Inv(Step(s, a))
  {
    match a
    case Linked(l, token) => LinkSafe(s, l, token);
    case Kept(l, token) => KeepSafe(s, l, token);
    case Asked(id, reply, note) =>
      var i := LinkAt(s.links, id);
      if i >= 0 {
        if reply.Failed? || reply.token == "" { EditSafe(s, i, s.links[i].(note := note), ""); }
        else { EditSafe(s, i, s.links[i].(pending := false, note := ""), reply.token); }
      }
    case Unlinked(id) => UnlinkSafe(s, id);
    case Checked(id, note) =>
      var i := LinkAt(s.links, id);
      if i >= 0 { EditSafe(s, i, s.links[i].(note := note), ""); }
  }

  ghost predicate Runs(s: Send, actions: seq<Action>)
    decreases |actions|
  {
    actions == [] || (Enabled(s, actions[0]) && Runs(Step(s, actions[0]), actions[1..]))
  }

  function End(s: Send, actions: seq<Action>): Send
    decreases |actions|
  {
    if actions == [] then s else End(Step(s, actions[0]), actions[1..])
  }

  /** In every interleaving of linking, adding vhosts, asking again and unlinking: each
      vhost has at most one link, a link holds a token exactly when it is not pending,
      no token outlives its link, and so the link a vhost's workflows go through is the
      only one it could be. */
  lemma {:induction false} SendingSideHolds(s: Send, actions: seq<Action>)
    requires Inv(s) && Runs(s, actions)
    ensures Inv(End(s, actions))
    ensures forall vhost: string, j :: 0 <= j < |End(s, actions).links| && End(s, actions).links[j].vhost == vhost ==>
      LinkFor(End(s, actions).links, vhost) == j
    decreases |actions|
  {
    if actions == [] {
      forall vhost: string, j | 0 <= j < |s.links| && s.links[j].vhost == vhost ensures LinkFor(s.links, vhost) == j {
        LinkAtUnique(s.links, j);
      }
    } else {
      StepSafe(s, actions[0]);
      SendingSideHolds(Step(s, actions[0]), actions[1..]);
    }
  }

  // ------------------------------------------------------------------ as it runs

  datatype Route = Route(vhost: string, target: string)

  /** l is the link a route was added as: waiting without a token, or with the one given. */
  ghost predicate AddedAs(l: Link, tokens: map<string, string>, via: string, route: Route, reply: Reply, id: string) {
    && reply.Answered? && l == Link(id, route.vhost, route.target, reply.token == "", via, "")
    && (reply.token != "" ==> id in tokens && tokens[id] == reply.token)
  }

  lemma KeepRefuses(s: Send, l: Link, token: string)
    requires !KeepLink(s, l, token).1
    ensures VHostAt(s.links, l.vhost) >= 0 && KeepLink(s, l, token).0 == s
  {
  }

  /** Keeping a link, or refusing to, never takes anything from a vhost that has one: it is
      found as before, with the token it had. */
  lemma KeepNeverReplaces(s: Send, l: Link, token: string, vhost: string)
    requires Inv(s) && LinkAt(s.links, l.id) < 0 && l.id !in s.tokens && VHostAt(s.links, vhost) >= 0
    ensures var after, i := KeepLink(s, l, token).0, LinkFor(s.links, vhost);
      && LinkFor(after.links, vhost) == i && i < |after.links| && after.links[i] == s.links[i]
      && (s.links[i].id in after.tokens <==> s.links[i].id in s.tokens)
      && (s.links[i].id in s.tokens ==> after.tokens[s.links[i].id] == s.tokens[s.links[i].id])
  {
    var (after, kept) := KeepLink(s, l, token);
    var i := VHostAt(s.links, vhost);
    assert s.links[i].id != l.id;
    if kept {
      assert forall j :: 0 <= j < |s.links| ==> after.links[j] == s.links[j];
      assert VHostAt(after.links, vhost) >= 0;
    }
  }

  lemma KeepKeeps(s: Send, l: Link, token: string)
    requires KeepLink(s, l, token).1
    ensures var after := KeepLink(s, l, token).0;
      && |after.links| == |s.links| + 1 && after.links[|s.links|] == l
      && (forall j :: 0 <= j < |s.links| ==> after.links[j] == s.links[j])
      && (forall id :: id != l.id ==>
          (id in after.tokens <==> id in s.tokens) && (id in s.tokens ==> after.tokens[id] == s.tokens[id]))
      && (token != "" ==> l.id in after.tokens && after.tokens[l.id] == token)
      && (forall id :: id != l.id && LinkAt(s.links, id) < 0 ==> LinkAt(after.links, id) < 0)
  {
  }

  class Service {
    var links: seq<Link>
    var tokens: map<string, string>

    ghost function Contents(): Send
      reads this
    {
      Send(links, tokens)
    }

    constructor ()
      ensures Contents() == Send([], map[]) && Inv(Contents())
    {
      links, tokens := [], map[];
    }

    /** Only this link's token changes; an empty one is no token. */
    method SaveLinkToken(id: string, token: string)
      modifies this`tokens
      ensures tokens == SaveToken(old(tokens), id, token)
      ensures id in tokens <==> token != ""
      ensures id in tokens ==> tokens[id] == token
      ensures forall x :: x != id ==>
          (x in tokens <==> x in old(tokens)) && (x in tokens ==> tokens[x] == old(tokens)[x])
    {
      if token == "" { tokens := tokens - {id}; } else { tokens := tokens[id := token]; }
    }

    method LinkWithReply(l: Link, token: string)
      modifies this
      ensures Contents() == LinkWith(old(Contents()), l, token)
    {
      var i := VHostAt(links, l.vhost);
      if i >= 0 {
        SaveLinkToken(links[i].id, "");
        links := Without(links, i);
      }
      SaveLinkToken(l.id, token);
      links := links + [l];
    }

    method KeepLinkFor(l: Link, token: string) returns (ok: bool)
      modifies this
      ensures Contents() == KeepLink(old(Contents()), l, token).0
      ensures ok == KeepLink(old(Contents()), l, token).1
    {
      if VHostAt(links, l.vhost) >= 0 { return false; }
      if token != "" { SaveLinkToken(l.id, token); }
      links := links + [l];
      ok := true;
    }

    /** AddVHosts' loop: each route is asked for and kept, up to the first refusal; those
        before it stay. replies and ids are what the other instance and the ID source
        give; nobody else is at work here between the rounds. */
    method AddVHosts(via: string, routes: seq<Route>, replies: seq<Reply>, ids: seq<string>) returns (added: nat)
      requires |replies| == |routes| == |ids| && Inv(Contents())
      requires forall i, j :: 0 <= i < j < |ids| ==> ids[i] != ids[j]
      requires forall k :: 0 <= k < |ids| ==> LinkAt(links, ids[k]) < 0 && ids[k] !in tokens
      modifies this
      ensures Inv(Contents()) && added <= |routes| && |links| == |old(links)| + added
      ensures forall j :: 0 <= j < |old(links)| ==> links[j] == old(links)[j]
      ensures forall k :: 0 <= k < added ==>
        AddedAs(links[|old(links)| + k], tokens, via, routes[k], replies[k], ids[k])
      ensures added < |routes| ==> replies[added].Failed? || VHostAt(links, routes[added].vhost) >= 0
    {
      hide KeepLink, Inv, LinkAt;
      added := 0;
      for k := 0 to |routes|
        invariant added == k && Inv(Contents()) && |links| == |old(links)| + k
        invariant forall j :: 0 <= j < |old(links)| ==> links[j] == old(links)[j]
        invariant forall j :: k <= j < |ids| ==> LinkAt(links, ids[j]) < 0 && ids[j] !in tokens
        invariant forall a :: 0 <= a < k ==>
          AddedAs(links[|old(links)| + a], tokens, via, routes[a], replies[a], ids[a])
      {
        if replies[k].Failed? { return; }
        var l := Link(ids[k], routes[k].vhost, routes[k].target, replies[k].token == "", via, "");
        KeepSafe(Contents(), l, replies[k].token);
        if KeepLink(Contents(), l, replies[k].token).1 { KeepKeeps(Contents(), l, replies[k].token); }
        if !KeepLink(Contents(), l, replies[k].token).1 { KeepRefuses(Contents(), l, replies[k].token); }
        var ok := KeepLinkFor(l, replies[k].token);
        if !ok {
          return;
        }
        added := added + 1;
      }
    }

    method AskAgainWith(id: string, reply: Reply, note: string) returns (ok: bool)
      modifies this
      ensures Contents() == AskAgain(old(Contents()), id, reply, note).0
      ensures ok == AskAgain(old(Contents()), id, reply, note).1
    {
      var i := LinkAt(links, id);
      if i < 0 { return false; }
      if reply.Failed? || reply.token == "" {
        links := links[i := links[i].(note := note)];
        return false;
      }
      SaveLinkToken(id, reply.token);
      links := links[i := links[i].(pending := false, note := "")];
      ok := true;
    }

    method Forget(id: string)
      modifies this
      ensures Contents() == Unlink(old(Contents()), id)
    {
      var kept: seq<Link> := [];
      for k := 0 to |links|
        invariant kept == LinksWithout(links[..k], id)
      {
        assert links[..k + 1][..k] == links[..k];
        if links[k].id != id { kept := kept + [links[k]]; }
      }
      assert links[..|links|] == links;
      links := kept;
      SaveLinkToken(id, "");
    }
  }
}
