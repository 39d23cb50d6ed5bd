/** What a subscription covers, character by character. */
module NtSubscriptions {
  import opened NtClient

  predicate Dollar(s: string) {
    |s| > 0 && s[0] == '$'
  }

  /** The listed string is the name, or, for a prefix subscription, the name starts with it; and then it starts with a
      dollar sign if the name does. */
  predicate Lists(listed: string, prefix: bool, name: string) {
    (if prefix then |listed| <= |name| && (Dollar(name) ==> Dollar(listed)) else |listed| == |name|) &&
    forall i | 0 <= i < |listed| :: listed[i] == name[i]
  }

  lemma MatchesIff(top: string, prefix: bool, name: string)
    ensures Matches(top, prefix, name) <==> Lists(top, prefix, name)
  {
  }

  ghost predicate ListsOne(sub: Subscription, k: nat, name: string) {
    k < |sub.topics| && Lists(sub.topics[k], sub.options.prefix, name)
  }

  ghost predicate ListsAt(subs: map<int, Subscription>, uid: int, k: nat, name: string, forValues: bool) {
    uid in subs && (forValues ==> !subs[uid].options.topicsonly) && ListsOne(subs[uid], k, name)
  }

  /** One of the subscriptions lists the topic; for values one that is not about topics only. */
  ghost predicate Wants(subs: map<int, Subscription>, name: string, forValues: bool) {
    exists uid, k: nat :: ListsAt(subs, uid, k, name, forValues)
  }

  /** isSubscribed for one subscription: whether any of its strings lists the name. */
  lemma CoversIff(sub: Subscription, name: string)
    ensures Covers(sub, name) <==> exists k: nat :: ListsOne(sub, k, name)
  {
    hide Matches, Lists;
    if Covers(sub, name) {
      var top :| top in sub.topics && Matches(top, sub.options.prefix, name);
      var k: nat :| k < |sub.topics| && sub.topics[k] == top;
      MatchesIff(top, sub.options.prefix, name);
      assert ListsOne(sub, k, name);
    }
    if k: nat :| ListsOne(sub, k, name) {
      MatchesIff(sub.topics[k], sub.options.prefix, name);
    }
  }

  /** isSubscribed for all the subscriptions of a client. */
  lemma SubscribedIff(subs: map<int, Subscription>, name: string, forValues: bool)
    ensures IsSubscribed(subs, name, forValues) <==> Wants(subs, name, forValues)
  {
    hide Covers, ListsOne;
    forall uid | uid in subs ensures Covers(subs[uid], name) <==> exists k: nat :: ListsOne(subs[uid], k, name) {
      CoversIff(subs[uid], name);
    }
    if IsSubscribed(subs, name, forValues) {
      var uid :| uid in subs && (!forValues || !subs[uid].options.topicsonly) && Covers(subs[uid], name);
      var k: nat :| ListsOne(subs[uid], k, name);
      assert ListsAt(subs, uid, k, name, forValues);
    }
  }
}
