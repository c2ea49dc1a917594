/** The viewer-relative fields every aggregation derives from a `$lookup`
    into the likes or the subscriptions: a count (`$size` of the joined
    array) and a flag (`$in: [req.user && req.user._id, "$joined.field"]`). */
module Joins {
  import opened Common
  import opened Collections
  import opened Models

  // ---------------------------------------------------------------------
  // Likes
  // ---------------------------------------------------------------------

  function OnTarget(t: Target): Like -> bool {
    (l: Like) => l.target == t
  }

  /** `$lookup` from "likes" on the liked record's id. */
  function LikesOn(likes: seq<Like>, t: Target): seq<Like> {
    Filter(likes, OnTarget(t))
  }

  /** The `likedBy` ids of joined likes ("$likes.likedBy"). */
  function Likers(ls: seq<Like>): (r: seq<Id>)
    ensures |r| == |ls|
    ensures forall i :: 0 <= i < |ls| ==> r[i] == ls[i].likedBy
  {
    if ls == [] then [] else [ls[0].likedBy] + Likers(ls[1..])
  }

  /** `$in` of the viewer's id: an absent viewer is never among the ids. */
  predicate ViewerAmong(viewer: Option<Id>, ids: seq<Id>) {
    viewer.Some? && viewer.value in ids
  }

  function LikesCount(likes: seq<Like>, t: Target): nat {
    |LikesOn(likes, t)|
  }

  predicate IsLiked(likes: seq<Like>, t: Target, viewer: Option<Id>) {
    ViewerAmong(viewer, Likers(LikesOn(likes, t)))
  }

  /** `likesCount` is the number of likes whose target is `t`. */
  lemma LikesCountIsNumberOfLikes(likes: seq<Like>, t: Target)
    ensures LikesCount(likes, t) == |set i | 0 <= i < |likes| && likes[i].target == t|
  {
    FilterCount(likes, OnTarget(t));
    assert Positions(likes, OnTarget(t)) == set i | 0 <= i < |likes| && likes[i].target == t;
  }

  /** `isLiked` holds exactly when some like of `t` was made by the viewer;
      in particular it is false when there is no viewer. */
  lemma IsLikedIff(likes: seq<Like>, t: Target, viewer: Option<Id>)
    ensures IsLiked(likes, t, viewer) <==>
              viewer.Some? && Like(t, viewer.value) in likes
  {
    var joined := LikesOn(likes, t);
    if viewer.Some? {
      var v := viewer.value;
      if v in Likers(joined) {
        var i :| 0 <= i < |joined| && Likers(joined)[i] == v;
        assert joined[i] in joined;
        assert joined[i] == Like(t, v);
      }
      if Like(t, v) in likes {
        assert Like(t, v) in joined;
        var i :| 0 <= i < |joined| && joined[i] == Like(t, v);
        assert Likers(joined)[i] == v;
      }
    }
  }

  // ---------------------------------------------------------------------
  // Subscriptions
  // ---------------------------------------------------------------------

  function ToChannel(c: Id): Subscription -> bool {
    (s: Subscription) => s.channel == c
  }

  function FromSubscriber(u: Id): Subscription -> bool {
    (s: Subscription) => s.subscriber == u
  }

  /** `$lookup` from "subscriptions" with foreignField "channel". */
  function SubscribersOf(subs: seq<Subscription>, channel: Id): seq<Subscription> {
    Filter(subs, ToChannel(channel))
  }

  /** `$lookup` from "subscriptions" with foreignField "subscriber". */
  function SubscribedTo(subs: seq<Subscription>, user: Id): seq<Subscription> {
    Filter(subs, FromSubscriber(user))
  }

  /** "$subscribers.subscriber" */
  function SubscriberIds(ss: seq<Subscription>): (r: seq<Id>)
    ensures |r| == |ss|
    ensures forall i :: 0 <= i < |ss| ==> r[i] == ss[i].subscriber
  {
    if ss == [] then [] else [ss[0].subscriber] + SubscriberIds(ss[1..])
  }

  predicate IsSubscribed(subs: seq<Subscription>, channel: Id, viewer: Option<Id>) {
    ViewerAmong(viewer, SubscriberIds(SubscribersOf(subs, channel)))
  }

  /** `subscribersCount` is the number of subscriptions whose channel is `channel`. */
  lemma SubscribersCountIsNumberOfSubscriptions(subs: seq<Subscription>, channel: Id)
    ensures |SubscribersOf(subs, channel)| == |set i | 0 <= i < |subs| && subs[i].channel == channel|
  {
    FilterCount(subs, ToChannel(channel));
    assert Positions(subs, ToChannel(channel)) == set i | 0 <= i < |subs| && subs[i].channel == channel;
  }

  /** `channelsSubscribedToCount` is the number of subscriptions whose subscriber is `user`. */
  lemma SubscribedToCountIsNumberOfSubscriptions(subs: seq<Subscription>, user: Id)
    ensures |SubscribedTo(subs, user)| == |set i | 0 <= i < |subs| && subs[i].subscriber == user|
  {
    FilterCount(subs, FromSubscriber(user));
    assert Positions(subs, FromSubscriber(user)) == set i | 0 <= i < |subs| && subs[i].subscriber == user;
  }

  /** `isSubscribed` holds exactly when the viewer subscribes to the channel;
      it is false when there is no viewer. */
  lemma IsSubscribedIff(subs: seq<Subscription>, channel: Id, viewer: Option<Id>)
    ensures IsSubscribed(subs, channel, viewer) <==>
              viewer.Some? && Subscription(viewer.value, channel) in subs
  {
    var joined := SubscribersOf(subs, channel);
    if viewer.Some? {
      var v := viewer.value;
      if v in SubscriberIds(joined) {
        var i :| 0 <= i < |joined| && SubscriberIds(joined)[i] == v;
        assert joined[i] in joined;
        assert joined[i] == Subscription(v, channel);
      }
      if Subscription(v, channel) in subs {
        assert Subscription(v, channel) in joined;
        var i :| 0 <= i < |joined| && joined[i] == Subscription(v, channel);
        assert SubscriberIds(joined)[i] == v;
      }
    }
  }
}
