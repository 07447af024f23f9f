/** What each operation of the sending side leaves, in terms of the links and tokens alone
    (internal/environment/link.go, LinkWith and Unlink; connection.go, askAgain). */
module LinkOutcome {
  import opened Sequences
  import opened LinkService

  /** Every other token is as it was. */
  ghost predicate OtherTokens(before: map<string, string>, after: map<string, string>, but: set<string>) {
    forall id :: id !in but ==>
      (id in after <==> id in before) && (id in before ==> after[id] == before[id])
  }

  /** after is before without the link at i: the others are there, in order. */
  ghost predicate OneTakenOut(before: seq<Link>, after: seq<Link>, i: nat) {
    && i < |before| == |after| + 1
    && (forall k :: 0 <= k < i ==> after[k] == before[k])
    && (forall k :: i <= k < |after| ==> after[k] == before[k + 1])
  }

  /** No link sends for the vhost itself. */
  ghost predicate NoneFor(links: seq<Link>, vhost: string) {
    forall k :: 0 <= k < |links| ==> links[k].vhost != vhost
  }

  lemma WithoutLast(links: seq<Link>, id: string)
    requires |links| > 0
    ensures var front, last := links[..|links| - 1], links[|links| - 1];
      LinksWithout(links, id) == LinksWithout(front, id) + if last.id == id then [] else [last]
  {
  }

  lemma {:induction false} TakesOut(links: seq<Link>, id: string, i: nat)
    requires OnePerVHost(links) && i < |links| && links[i].id == id
    ensures OneTakenOut(links, LinksWithout(links, id), i)
    decreases |links|
  {
    hide LinksWithout;
    WithoutLast(links, id);
    var front := links[..|links| - 1];
    if i == |links| - 1 { TakesNothing(front, id); } else { TakesOut(front, id, i); }
  }

  lemma {:induction false} TakesNothing(links: seq<Link>, id: string)
    requires forall k :: 0 <= k < |links| ==> links[k].id != id
    ensures LinksWithout(links, id) == links
  {
    if links != [] {
      WithoutLast(links, id);
      TakesNothing(links[..|links| - 1], id);
      hide LinksWithout;
      assert links == links[..|links| - 1] + [links[|links| - 1]];
    }
  }

  /** The link at i and its token are gone, and nothing else is; its vhost has no link of its own
      any more. */
  ghost predicate TakenAway(s: Send, after: Send, i: nat)
    requires i < |s.links|
  {
    && OneTakenOut(s.links, after.links, i)
    && (forall k :: 0 <= k < |after.links| ==> after.links[k].id != s.links[i].id)
    && s.links[i].id !in after.tokens && OtherTokens(s.tokens, after.tokens, {s.links[i].id})
    && NoneFor(after.links, s.links[i].vhost) && LinkFor(after.links, s.links[i].vhost) == VHostAt(after.links, "")
  }

  lemma TakenAwayIs(s: Send, after: Send, i: nat)
    requires i < |s.links| && OnePerVHost(s.links) && OneTakenOut(s.links, after.links, i)
    requires after.tokens == s.tokens - {s.links[i].id}
    ensures TakenAway(s, after, i)
  {
    TakenOutDiffers(s.links, after.links, i);
    hide OneTakenOut, OnePerVHost, VHostAt;
    NotThere(after.links, s.links[i].vhost);
  }

  /** Unlinking takes the link and its token away. */
  lemma UnlinkTakesAway(s: Send, i: nat)
    requires Inv(s) && i < |s.links|
    ensures TakenAway(s, Unlink(s, s.links[i].id), i)
  {
    hide LinksWithout, Matched, OneTakenOut, TakenAway, OnePerVHost;
    TakesOut(s.links, s.links[i].id, i);
    TakenAwayIs(s, Unlink(s, s.links[i].id), i);
  }

  lemma NotThere(links: seq<Link>, vhost: string)
    requires NoneFor(links, vhost)
    ensures VHostAt(links, vhost) < 0
  {
  }

  /** An id that has no link changes nothing. */
  lemma UnlinkUnknown(s: Send, id: string)
    requires Inv(s) && forall i :: 0 <= i < |s.links| ==> s.links[i].id != id
    ensures Unlink(s, id) == s
  {
    TakesNothing(s.links, id);
    hide LinksWithout;
    assert !Owned(s.links, id);
    assert s.tokens - {id} == s.tokens;
  }

  lemma TakenOutDiffers(before: seq<Link>, after: seq<Link>, i: nat)
    requires OnePerVHost(before) && OneTakenOut(before, after, i)
    ensures NoneFor(after, before[i].vhost) && forall k :: 0 <= k < |after| ==> after[k].id != before[i].id
  {
    forall k | 0 <= k < |after| ensures after[k].vhost != before[i].vhost && after[k].id != before[i].id {
      var m := if k < i then k else k + 1;
      assert after[k] == before[m] && m != i;
    }
  }

  /** The link just made is the vhost's, with the token it came with. */
  ghost predicate NowLinked(after: Send, l: Link, token: string) {
    && |after.links| > 0 && after.links[|after.links| - 1] == l && LinkFor(after.links, l.vhost) == |after.links| - 1
    && l.id in after.tokens && after.tokens[l.id] == token
  }

  /** Linking a vhost for the first time adds its link and token. */
  lemma LinkAdds(s: Send, l: Link, token: string)
    requires NoneFor(s.links, l.vhost) && token != ""
    ensures var after := LinkWith(s, l, token);
      NowLinked(after, l, token) && after.links == s.links + [l] && OtherTokens(s.tokens, after.tokens, {l.id})
  {
    VHostLast(s.links + [l], l.vhost);
    hide VHostAt;
  }

  /** Linking it again replaces its link: the old one is gone with its token; every other link is
      there, in order, with its token. */
  lemma LinkReplaces(s: Send, l: Link, token: string, i: nat)
    requires Inv(s) && i < |s.links| && s.links[i].vhost == l.vhost && s.links[i].id != l.id && token != ""
    ensures var after := LinkWith(s, l, token);
      && NowLinked(after, l, token) && OneTakenOut(s.links, after.links[..|after.links| - 1], i)
      && s.links[i].id !in after.tokens && OtherTokens(s.tokens, after.tokens, {s.links[i].id, l.id})
  {
    LinkAtUnique(s.links, i);
    WithoutIs(s.links, i);
    var kept := Without(s.links, i);
    TakenOutDiffers(s.links, kept, i);
    VHostLast(kept + [l], l.vhost);
    hide VHostAt, Without, OneTakenOut, Inv;
    assert (kept + [l])[..|kept|] == kept;
  }

  lemma WithoutIs(links: seq<Link>, i: nat)
    requires i < |links|
    ensures OneTakenOut(links, Without(links, i), i)
  {
  }

  lemma VHostLast(links: seq<Link>, vhost: string)
    requires |links| > 0 && links[|links| - 1].vhost == vhost
    requires forall k :: 0 <= k < |links| - 1 ==> links[k].vhost != vhost
    ensures VHostAt(links, vhost) == |links| - 1
  {
  }

  /** Asking again: with a token the link waits no longer and holds it; without one, only the
      note on it is new; a link that is gone by then changes nothing. */
  lemma AskAgainEnds(s: Send, id: string, reply: Reply, note: string)
    requires Inv(s)
    ensures var (after, ok) := AskAgain(s, id, reply, note);
      && ((forall k :: 0 <= k < |s.links| ==> s.links[k].id != id) ==> !ok && after == s)
      && (forall i :: 0 <= i < |s.links| && s.links[i].id == id ==>
            && |after.links| == |s.links|
            && (forall k :: 0 <= k < |s.links| && k != i ==> after.links[k] == s.links[k])
            && OtherTokens(s.tokens, after.tokens, {id})
            && (ok <==> reply.Answered? && reply.token != "")
            && (ok ==> after.links[i] == s.links[i].(pending := false, note := "") && id in after.tokens &&
                       after.tokens[id] == reply.token)
            && (!ok ==> after.links[i] == s.links[i].(note := note) && after.tokens == s.tokens))
  {
    forall i | 0 <= i < |s.links| && s.links[i].id == id ensures LinkAt(s.links, id) == i { LinkAtUnique(s.links, i); }
  }

  /** A link added late is kept exactly when the vhost has none of its own by then. */
  lemma KeepsUnless(s: Send, l: Link, token: string)
    ensures KeepLink(s, l, token).1 <==> NoneFor(s.links, l.vhost)
    ensures !KeepLink(s, l, token).1 ==> KeepLink(s, l, token).0 == s
  {
  }

  /** Checking a link changes its note and nothing else. */
  lemma CheckOnlyNotes(s: Send, id: string, note: string)
    requires Inv(s)
    ensures var after := Step(s, Checked(id, note));
      && after.tokens == s.tokens && |after.links| == |s.links|
      && forall k :: 0 <= k < |s.links| ==>
           after.links[k] == if s.links[k].id == id then s.links[k].(note := note) else s.links[k]
  {
    forall i | 0 <= i < |s.links| && s.links[i].id == id ensures LinkAt(s.links, id) == i { LinkAtUnique(s.links, i); }
  }

  /** A vhost's workflows go through its own link, or through one made before links were per
      vhost if it has none, or nowhere. */
  lemma LinkForIs(links: seq<Link>, vhost: string)
    requires OnePerVHost(links)
    ensures var i := LinkFor(links, vhost);
      && -1 <= i < |links|
      && (i >= 0 ==> links[i].vhost == vhost || (links[i].vhost == "" && NoneFor(links, vhost)))
      && (i < 0 ==> NoneFor(links, vhost) && NoneFor(links, ""))
  {
  }
}
