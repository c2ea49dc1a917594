/** The tweet controller: posting a tweet, a user's tweets with their like
    counts and the viewer's like, editing a tweet, and the delete handler,
    whose inverted id check refuses every request. */
module TweetController {
  import opened Common
  import opened Collections
  import opened Models
  import opened Joins

  // ---------------------------------------------------------------------
  // createTweet
  // ---------------------------------------------------------------------

  /** `createTweet`: empty content is refused with 400; the new tweet's owner
      is the acting user, whatever `owner` the body names. `id` and
      `createdAt` are the values the database assigns. */
  function NewTweet(actor: Id, id: Id, createdAt: int, content: Option<string>, bodyOwner: Option<Id>)
      : (r: Result<Tweet>)
    ensures r.Err? <==> !Present(content)
    ensures r.Err? ==> r.error == ApiError(400, "Invalid content for tweet")
    ensures r.Ok? ==> r.value.owner == actor && r.value.content == content.value && r.value.id == id
  {
    if !Present(content) then Err(ApiError(400, "Invalid content for tweet"))
    else Ok(Tweet(id, content.value, actor, createdAt))
  }

  /** The body's `owner` has no effect on what is stored. */
  lemma BodyOwnerIgnored(actor: Id, id: Id, createdAt: int, content: Option<string>, o1: Option<Id>, o2: Option<Id>)
    ensures NewTweet(actor, id, createdAt, content, o1) == NewTweet(actor, id, createdAt, content, o2)
  {
  }

  method CreateTweet(store: Store, actor: Id, id: Id, createdAt: int, content: Option<string>, bodyOwner: Option<Id>)
      returns (r: Result<Tweet>)
    modifies store`tweets
    ensures r == NewTweet(actor, id, createdAt, content, bodyOwner)
    ensures r.Ok? ==> store.tweets == old(store.tweets) + [r.value]
    ensures r.Err? ==> store.tweets == old(store.tweets)
  {
    r := NewTweet(actor, id, createdAt, content, bodyOwner);
    if r.Ok? {
      store.tweets := store.tweets + [r.value];
    }
  }

  // ---------------------------------------------------------------------
  // getUserTweets
  // ---------------------------------------------------------------------

  /** The tweet's author: id and username (the stored avatar is a plain url
      string, so the path `avatar.url` selects nothing). */
  datatype TweetOwner = TweetOwner(id: Id, username: string)

  datatype TweetView = TweetView(
    id: Id,
    content: string,
    ownerDetails: Option<TweetOwner>,
    likesCount: nat,
    createdAt: int,
    isLiked: bool)

  function ByOwner(userId: Id): Tweet -> bool {
    (t: Tweet) => t.owner == userId
  }

  function TweetDate(): Tweet -> int { (t: Tweet) => t.createdAt }

  function TweetViewDate(): TweetView -> int { (v: TweetView) => v.createdAt }

  function TweetOwnerOf(users: seq<User>, id: Id): Option<TweetOwner> {
    match FindKey(users, UserKey, id)
    case None => None
    case Some(u) => Some(TweetOwner(u.id, u.username))
  }

  function ShowTweet(users: seq<User>, likes: seq<Like>, viewer: Option<Id>, t: Tweet): TweetView {
    TweetView(t.id, t.content, TweetOwnerOf(users, t.owner), LikesCount(likes, OnTweet(t.id)),
              t.createdAt, IsLiked(likes, OnTweet(t.id), viewer))
  }

  function ShowTweets(users: seq<User>, likes: seq<Like>, viewer: Option<Id>, ts: seq<Tweet>): (r: seq<TweetView>)
    ensures |r| == |ts|
    ensures forall i :: 0 <= i < |ts| ==> r[i] == ShowTweet(users, likes, viewer, ts[i])
  {
    if ts == [] then [] else [ShowTweet(users, likes, viewer, ts[0])] + ShowTweets(users, likes, viewer, ts[1..])
  }

  /** `getUserTweets`: the user's tweets, newest first; a malformed id is refused with 400. */
  function UserTweets(tweets: seq<Tweet>, users: seq<User>, likes: seq<Like>, userId: string, viewer: Option<Id>)
      : (r: Result<seq<TweetView>>)
    ensures r.Err? <==> !IsValidObjectId(userId)
    ensures r.Err? ==> r.error == ApiError(400, "Invalid userId")
    ensures r.Ok? ==> |r.value| == |Filter(tweets, ByOwner(userId))|
  {
    if !IsValidObjectId(userId) then Err(ApiError(400, "Invalid userId"))
    else
      var mine := Filter(tweets, ByOwner(userId));
      var sorted := SortBy(mine, TweetDate(), false);
      assert |multiset(sorted)| == |multiset(mine)|;
      Ok(ShowTweets(users, likes, viewer, sorted))
  }

  /** The list is the user's tweets and nothing else, newest first. */
  lemma UserTweetsAreTheirs(tweets: seq<Tweet>, users: seq<User>, likes: seq<Like>, userId: string, viewer: Option<Id>)
    requires IsValidObjectId(userId)
    ensures var l := UserTweets(tweets, users, likes, userId, viewer).value;
            (forall w :: w in l ==> exists t :: t in tweets && t.owner == userId && w == ShowTweet(users, likes, viewer, t)) &&
            (forall t :: t in tweets && t.owner == userId ==> ShowTweet(users, likes, viewer, t) in l) &&
            Ordered(l, TweetViewDate(), false)
  {
    var mine := Filter(tweets, ByOwner(userId));
    var sorted := SortBy(mine, TweetDate(), false);
    SortByMembers(mine, TweetDate(), false);
    var l := ShowTweets(users, likes, viewer, sorted);
    forall w | w in l
      ensures exists t :: t in tweets && t.owner == userId && w == ShowTweet(users, likes, viewer, t)
    {
      var i :| 0 <= i < |l| && l[i] == w;
      assert sorted[i] in sorted;
    }
    forall t | t in tweets && t.owner == userId
      ensures ShowTweet(users, likes, viewer, t) in l
    {
      assert t in sorted;
      var i :| 0 <= i < |sorted| && sorted[i] == t;
      assert l[i] == ShowTweet(users, likes, viewer, t);
    }
    forall i, j | 0 <= i < j < |l|
      ensures InOrder(TweetViewDate()(l[i]), TweetViewDate()(l[j]), false)
    {
      assert InOrder(TweetDate()(sorted[i]), TweetDate()(sorted[j]), false);
    }
  }

  /** Per tweet: `likesCount` is the number of likes on it, and `isLiked`
      holds exactly when the viewer liked it (never without a viewer). */
  lemma TweetViewFields(users: seq<User>, likes: seq<Like>, viewer: Option<Id>, t: Tweet)
    ensures var w := ShowTweet(users, likes, viewer, t);
            w.id == t.id && w.content == t.content && w.createdAt == t.createdAt &&
            w.likesCount == |set i | 0 <= i < |likes| && likes[i].target == OnTweet(t.id)| &&
            (w.isLiked <==> viewer.Some? && Like(OnTweet(t.id), viewer.value) in likes) &&
            (w.ownerDetails.Some? ==> w.ownerDetails.value.id == t.owner)
  {
    LikesCountIsNumberOfLikes(likes, OnTweet(t.id));
    IsLikedIff(likes, OnTweet(t.id), viewer);
  }

  // ---------------------------------------------------------------------
  // updateTweet
  // ---------------------------------------------------------------------

  /** The checks of `updateTweet`, in order; every refusal is a 404. */
  function UpdateTweetCheck(tweets: seq<Tweet>, actor: Id, id: string, content: Option<string>): (r: Result<Tweet>)
    ensures r.Err? ==> r.error.ApiError? && r.error.statusCode == 404
    ensures r.Ok? ==> Present(content) && r.value in tweets && r.value.id == id && r.value.owner == actor
    ensures !Present(content) ==> r == Err(ApiError(404, "Invalid Tweet"))
    ensures Present(content) && !IsValidObjectId(id) ==> r == Err(ApiError(404, "Invalid TweetId"))
    ensures Present(content) && IsValidObjectId(id) && FindKey(tweets, TweetKey, id).None? ==>
              r == Err(ApiError(404, "Tweet not found"))
    ensures Present(content) && IsValidObjectId(id) && FindKey(tweets, TweetKey, id).Some? &&
            FindKey(tweets, TweetKey, id).value.owner != actor ==>
              r == Err(ApiError(404, "Invalid Credentials"))
  {
    if !Present(content) then Err(ApiError(404, "Invalid Tweet"))
    else if !IsValidObjectId(id) then Err(ApiError(404, "Invalid TweetId"))
    else
      match FindKey(tweets, TweetKey, id)
      case None => Err(ApiError(404, "Tweet not found"))
      case Some(t) => if t.owner != actor then Err(ApiError(404, "Invalid Credentials")) else Ok(t)
  }

  /** `updateTweet` as written. A request that passes the checks reaches
      `Tweet.update(tweetId, ...)`, which current Mongoose no longer defines,
      so the call throws a TypeError and no tweet is rewritten. */
  function UpdateTweetDecision(tweets: seq<Tweet>, actor: Id, id: string, content: Option<string>): (r: Result<()>)
    ensures r.Err?
    ensures UpdateTweetCheck(tweets, actor, id, content).Err? ==> r.error == UpdateTweetCheck(tweets, actor, id, content).error
    ensures r.error.ScriptError? <==> UpdateTweetCheck(tweets, actor, id, content).Ok?
  {
    match UpdateTweetCheck(tweets, actor, id, content)
    case Err(e) => Err(e)
    case Ok(_) => Err(ScriptError("Tweet.update is not a function"))
  }

  /** `updateTweet`: every request fails, and the tweets are left as they were. */
  method UpdateTweet(store: Store, actor: Id, id: string, content: Option<string>) returns (r: Result<()>)
    ensures r == UpdateTweetDecision(store.tweets, actor, id, content)
    ensures r.Err?
  {
    var c := UpdateTweetCheck(store.tweets, actor, id, content);
    if c.Err? {
      return Err(c.error);
    }
    return Err(ScriptError("Tweet.update is not a function"));
  }

  // ---------------------------------------------------------------------
  // deleteTweet
  // ---------------------------------------------------------------------

  /** `deleteTweet` as written: a well-formed id is refused with 400, and a
      malformed one reaches a lookup that fails to cast it, so no request
      gets to the owner check or the delete. */
  function DeleteTweetDecision(tweets: seq<Tweet>, actor: Id, id: string): (r: Result<()>)
    ensures r.Err?
    ensures IsValidObjectId(id) ==> r == Err(ApiError(400, "Tweet cannot be deleted"))
    ensures !IsValidObjectId(id) ==> r.error.MongooseError?
  {
    if IsValidObjectId(id) then Err(ApiError(400, "Tweet cannot be deleted"))
    else
      match FindById(tweets, TweetKey, id)
      case Err(e) => Err(e)
      case Ok(None) => Err(ApiError(400, "Tweet not found"))
      case Ok(Some(t)) =>
        if t.owner != actor then Err(ApiError(400, "Tweet cannot be deleted by different users")) else Ok(())
  }

  /** `deleteTweet`: it has nothing to write, since every request is refused
      before the delete; the store is left as it was. */
  method DeleteTweet(store: Store, actor: Id, id: string) returns (r: Result<()>)
    ensures r == DeleteTweetDecision(store.tweets, actor, id)
    ensures r.Err?
  {
    r := DeleteTweetDecision(store.tweets, actor, id);
  }
}
