/** SyncChildren: make a parent's associations on the Tower server equal to a desired
    set, one POST at a time, in whatever order Go ranges over the two maps. */
module SyncChildren {
  import opened Json

  /** How the server answers a POST. A failure may be reported before or after the
      change took effect. */
  datatype Answer = Done | FailedBefore | FailedAfter

  datatype ChildId = ChildId(number: int)

  datatype Post = Post(id: ChildId, associate: bool)

  class Server {
    /** The children associated with the parent now. */
    var children: set<ChildId>
    var posts: seq<Post>
    const answers: seq<Answer>

    constructor (children: set<ChildId>, answers: seq<Answer>)
      ensures this.children == children && this.answers == answers && posts == []
    {
      this.children := children;
      this.answers := answers;
      posts := [];
    }

    /** The n-th POST is answered by answers[n], and succeeds beyond them. */
    function AnswerTo(n: nat): Answer
    {
      if n < |answers| then answers[n] else Done
    }

    method PostChild(id: ChildId, associate: bool) returns (ok: bool)
      modifies this
      ensures posts == old(posts) + [Post(id, associate)]
      ensures ok == AnswerTo(|old(posts)|).Done?
      ensures children == if AnswerTo(|old(posts)|).FailedBefore? then old(children)
                          else if associate then old(children) + {id} else old(children) - {id}
    {
      var answer := AnswerTo(|posts|);
      posts := posts + [Post(id, associate)];
      if !answer.FailedBefore? {
        children := if associate then children + {id} else children - {id};
      }
      ok := answer.Done?;
    }

    /** listing is what the GET of the children brought, None when it failed, complete
        when it did not. sent are the POSTs made. */
    method SyncChildren(listing: Option<seq<ChildId>>, desired: seq<ChildId>) returns (ok: bool, ghost sent: seq<Post>)
      requires listing.Some? ==> ToSet(listing.value) == children
      modifies this
      ensures posts == old(posts) + sent
      ensures listing.None? ==> !ok && sent == [] && children == old(children)
      // It fails exactly at the first POST that is not answered well.
      ensures listing.Some? ==> (ok <==> AllDone(|old(posts)|, |posts|))
      ensures listing.Some? && !ok ==> sent != [] && AllDone(|old(posts)|, |posts| - 1)
      ensures ok ==> children == ToSet(desired)
      ensures ok ==> |sent| == |old(children) - ToSet(desired)| + |ToSet(desired) - old(children)|
      // At any failure: what both sets hold is still there, and nothing else came in.
      ensures old(children) * ToSet(desired) <= children <= old(children) + ToSet(desired)
      // No id is posted twice, and each POST moves its id from one set towards the other.
      ensures Purposeful(sent, old(children), ToSet(desired))
    {
      if listing.None? {
        return false, [];
      }
      var existingSet := CollectSet(listing.value);
      var desiredSet := CollectSet(desired);
      ok, sent := DisassociateExtras(existingSet, desiredSet);
      if ok {
        ghost var first := sent;
        ghost var second;
        ok, second := AssociateMissing(existingSet, desiredSet);
        JoinPosts(first, second, existingSet, desiredSet);
        sent := first + second;
      }
    }

    /** The POSTs numbered from first up to last were answered well. */
    predicate AllDone(first: nat, last: int)
    {
      forall n :: first <= n < last ==> AnswerTo(n).Done?
    }

    /** The first loop. */
    method DisassociateExtras(existing: set<ChildId>, desired: set<ChildId>) returns (ok: bool, ghost sent: seq<Post>)
      requires children == existing
      modifies this
      ensures posts == old(posts) + sent
      ensures ok <==> AllDone(|old(posts)|, |posts|)
      ensures !ok ==> sent != [] && AllDone(|old(posts)|, |posts| - 1)
      ensures ok ==> children == existing * desired && |sent| == |existing - desired|
      ensures existing * desired <= children <= existing
      ensures Purposeful(sent, existing, desired) && OneWay(sent, false)
    {
      var todo: set<ChildId> := existing;
      ghost var gone: set<ChildId> := {};
      sent := [];
      while todo != {}
        invariant todo <= existing && gone <= existing - desired && gone !! todo
        invariant forall id :: id in existing && id !in desired ==> id in todo || id in gone
        invariant children == existing - gone
        invariant posts == old(posts) + sent && Sent(sent, false, gone, existing, desired)
        invariant AllDone(|old(posts)|, |posts|)
        decreases |todo|
      {
        var id :| id in todo;
        todo := todo - {id};
        if id !in desired {
          var done := PostChild(id, false);
          OneMore(sent, Post(id, false), gone, existing, desired);
          sent := sent + [Post(id, false)];
          gone := gone + {id};
          if !done {
            return false, sent;
          }
        }
      }
      assert gone == existing - desired;
      assert children == existing * desired;
      return true, sent;
    }

    /** The second loop. */
    method AssociateMissing(existing: set<ChildId>, desired: set<ChildId>) returns (ok: bool, ghost sent: seq<Post>)
      requires children == existing * desired
      modifies this
      ensures posts == old(posts) + sent
      ensures ok <==> AllDone(|old(posts)|, |posts|)
      ensures !ok ==> sent != [] && AllDone(|old(posts)|, |posts| - 1)
      ensures ok ==> children == desired && |sent| == |desired - existing|
      ensures existing * desired <= children <= desired
      ensures Purposeful(sent, existing, desired) && OneWay(sent, true)
    {
      var todo: set<ChildId> := desired;
      ghost var come: set<ChildId> := {};
      sent := [];
      while todo != {}
        invariant todo <= desired && come !! todo
        invariant forall id :: id in come ==> id in desired && id !in existing
        invariant forall id :: id in desired && id !in existing ==> id in todo || id in come
        invariant forall id :: id in children <==> id in desired && (id in existing || id in come)
        invariant posts == old(posts) + sent && Sent(sent, true, come, existing, desired)
        invariant AllDone(|old(posts)|, |posts|)
        decreases |todo|
      {
        var id :| id in todo;
        todo := todo - {id};
        if id !in existing {
          var done := PostChild(id, true);
          OneMore(sent, Post(id, true), come, existing, desired);
          sent := sent + [Post(id, true)];
          come := come + {id};
          if !done {
            return false, sent;
          }
        }
      }
      assert come == desired - existing;
      assert children == desired;
      return true, sent;
    }

    /** A second call, after the first one succeeded, posts nothing. */
    method SyncTwice(listing: seq<ChildId>, relisting: seq<ChildId>, desired: seq<ChildId>)
      returns (ok: bool, ghost sent: seq<Post>)
      requires ToSet(listing) == children && ToSet(relisting) == ToSet(desired)
      modifies this
      ensures posts == old(posts) + sent && (ok <==> AllDone(|old(posts)|, |posts|))
      ensures ok ==> children == ToSet(desired)
      ensures ok ==> |sent| == |old(children) - ToSet(desired)| + |ToSet(desired) - old(children)|
    {
      ok, sent := SyncChildren(Some(listing), desired);
      if ok {
        ghost var again;
        ok, again := SyncChildren(Some(relisting), desired);
        if again != [] { NoPurposeBetweenEquals(again, ToSet(desired)); }
      }
    }
  }

  function ToSet(ids: seq<ChildId>): set<ChildId>
  {
    set i | 0 <= i < |ids| :: ids[i]
  }

  method CollectSet(ids: seq<ChildId>) returns (r: set<ChildId>)
    ensures r == ToSet(ids)
  {
    r := {};
    for i := 0 to |ids|
      invariant r == ToSet(ids[..i])
    {
      r := r + {ids[i]};
      assert ids[..i + 1] == ids[..i] + [ids[i]];
    }
    assert ids[..|ids|] == ids;
  }

  /** Every POST associates a missing id or disassociates a surplus one, each once. */
  ghost predicate Purposeful(posts: seq<Post>, existing: set<ChildId>, desired: set<ChildId>)
  {
    && (forall p :: p in posts ==> Useful(p, existing, desired))
    && (forall i, j :: 0 <= i < j < |posts| ==> posts[i].id != posts[j].id)
  }

  predicate Useful(p: Post, existing: set<ChildId>, desired: set<ChildId>)
  {
    if p.associate then p.id in desired && p.id !in existing else p.id in existing && p.id !in desired
  }

  ghost predicate OneWay(posts: seq<Post>, associate: bool)
  {
    forall p :: p in posts ==> p.associate == associate
  }

  /** The POSTs of one loop: one for each of ids. */
  ghost predicate Sent(posts: seq<Post>, associate: bool, ids: set<ChildId>, existing: set<ChildId>, desired: set<ChildId>)
  {
    && Purposeful(posts, existing, desired)
    && OneWay(posts, associate)
    && |posts| == |ids|
    && forall p :: p in posts ==> p.id in ids
  }

  lemma OneMore(posts: seq<Post>, p: Post, ids: set<ChildId>, existing: set<ChildId>, desired: set<ChildId>)
    requires Sent(posts, p.associate, ids, existing, desired)
    requires Useful(p, existing, desired) && p.id !in ids
    ensures Sent(posts + [p], p.associate, ids + {p.id}, existing, desired)
  {
    forall i, j | 0 <= i < j < |posts + [p]| ensures (posts + [p])[i].id != (posts + [p])[j].id {
      assert posts[i] in posts;
    }
  }

  /** Disassociations and associations never concern the same id. */
  lemma JoinPosts(first: seq<Post>, second: seq<Post>, existing: set<ChildId>, desired: set<ChildId>)
    requires Purposeful(first, existing, desired) && OneWay(first, false)
    requires Purposeful(second, existing, desired) && OneWay(second, true)
    ensures Purposeful(first + second, existing, desired)
  {
    var all := first + second;
    forall i, j | 0 <= i < j < |all| ensures all[i].id != all[j].id {
      if i < |first| <= j {
        assert first[i] in first && second[j - |first|] in second;
      }
    }
  }

  lemma NoPurposeBetweenEquals(posts: seq<Post>, ids: set<ChildId>)
    requires posts != []
    ensures !Purposeful(posts, ids, ids)
  {
    assert posts[0] in posts;
  }
}
