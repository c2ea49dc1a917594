/** The comment controller: the paged comment list of a video with each
    comment's like count and the viewer's like, the add handler (which
    answers with that same list and stores nothing), editing a comment's
    content, and deleting a comment together with the requester's likes on
    it. The ownership guards are modelled as the intended `owner == actor`. */
module CommentController {
  import opened Common
  import opened Collections
  import opened Models
  import opened Joins
  import opened Paging

  // ---------------------------------------------------------------------
  // getVideoComments
  // ---------------------------------------------------------------------

  /** The comment's author as listed: username and full name (the stored
      avatar is a plain url string, so the path `avatar.url` selects nothing). */
  datatype AuthorCard = AuthorCard(username: string, fullName: Option<string>)

  datatype CommentView = CommentView(
    id: Id,
    content: string,
    createdAt: int,
    likesCount: nat,
    owner: Option<AuthorCard>,
    isLiked: bool)

  function UnderVideo(videoId: Id): Comment -> bool {
    (c: Comment) => c.video == videoId
  }

  function CommentDate(): Comment -> int { (c: Comment) => c.createdAt }

  function ViewDate(): CommentView -> int { (v: CommentView) => v.createdAt }

  function AuthorOf(users: seq<User>, id: Id): Option<AuthorCard> {
    match FindKey(users, UserKey, id)
    case None => None
    case Some(u) => Some(AuthorCard(u.username, u.fullName))
  }

  function ViewOf(users: seq<User>, likes: seq<Like>, viewer: Option<Id>, c: Comment): CommentView {
    CommentView(c.id, c.content, c.createdAt, LikesCount(likes, OnComment(c.id)),
                AuthorOf(users, c.owner), IsLiked(likes, OnComment(c.id), viewer))
  }

  function ViewsOf(users: seq<User>, likes: seq<Like>, viewer: Option<Id>, cs: seq<Comment>): (r: seq<CommentView>)
    ensures |r| == |cs|
    ensures forall i :: 0 <= i < |cs| ==> r[i] == ViewOf(users, likes, viewer, cs[i])
  {
    if cs == [] then [] else [ViewOf(users, likes, viewer, cs[0])] + ViewsOf(users, likes, viewer, cs[1..])
  }

  /** The comments of the video, newest first, as listed before paging. */
  function CommentList(comments: seq<Comment>, users: seq<User>, likes: seq<Like>, videoId: Id,
                       viewer: Option<Id>): seq<CommentView> {
    ViewsOf(users, likes, viewer, SortBy(Filter(comments, UnderVideo(videoId)), CommentDate(), false))
  }

  /** `getVideoComments`. The video lookup is not awaited, so the 404 branch
      never fires; a malformed id makes the `ObjectId` constructor throw. */
  function VideoComments(comments: seq<Comment>, users: seq<User>, likes: seq<Like>, videoId: string,
                         viewer: Option<Id>, page: Option<string>, limit: Option<string>)
      : (r: Result<Page<CommentView>>)
    ensures r.Err? <==> !IsValidObjectId(videoId)
    ensures r.Err? ==> r.error.ScriptError?
    ensures r.Ok? ==> r.value.totalItems == |Filter(comments, UnderVideo(videoId))|
  {
    if !IsValidObjectId(videoId) then Err(ScriptError("input must be a 24 character hex string"))
    else
      var all := CommentList(comments, users, likes, videoId, viewer);
      var mine := Filter(comments, UnderVideo(videoId));
      assert |all| == |mine| by {
        assert |multiset(SortBy(mine, CommentDate(), false))| == |multiset(mine)|;
      }
      Ok(Paginate(all, QueryNumber(page, DefaultPage), QueryNumber(limit, DefaultLimit)))
  }

  /** The list is the video's comments and nothing else: each view is of a
      comment on the video, and each comment on the video has its view. */
  lemma CommentListIsTheVideosComments(comments: seq<Comment>, users: seq<User>, likes: seq<Like>,
                                       videoId: Id, viewer: Option<Id>)
    ensures var l := CommentList(comments, users, likes, videoId, viewer);
            (forall w :: w in l ==> exists c :: c in comments && c.video == videoId && w == ViewOf(users, likes, viewer, c)) &&
            (forall c :: c in comments && c.video == videoId ==> ViewOf(users, likes, viewer, c) in l)
  {
    var mine := Filter(comments, UnderVideo(videoId));
    var sorted := SortBy(mine, CommentDate(), false);
    SortByMembers(mine, CommentDate(), false);
    var l := ViewsOf(users, likes, viewer, sorted);
    forall w | w in l
      ensures exists c :: c in comments && c.video == videoId && w == ViewOf(users, likes, viewer, c)
    {
      var i :| 0 <= i < |l| && l[i] == w;
      assert sorted[i] in sorted;
    }
    forall c | c in comments && c.video == videoId
      ensures ViewOf(users, likes, viewer, c) in l
    {
      assert c in sorted;
      var i :| 0 <= i < |sorted| && sorted[i] == c;
      assert l[i] == ViewOf(users, likes, viewer, c);
    }
  }

  /** Newest first. */
  lemma CommentListNewestFirst(comments: seq<Comment>, users: seq<User>, likes: seq<Like>,
                               videoId: Id, viewer: Option<Id>)
    ensures Ordered(CommentList(comments, users, likes, videoId, viewer), ViewDate(), false)
  {
    var sorted := SortBy(Filter(comments, UnderVideo(videoId)), CommentDate(), false);
    var l := ViewsOf(users, likes, viewer, sorted);
    forall i, j | 0 <= i < j < |l|
      ensures InOrder(ViewDate()(l[i]), ViewDate()(l[j]), false)
    {
      assert InOrder(CommentDate()(sorted[i]), CommentDate()(sorted[j]), false);
    }
  }

  /** Per comment: `likesCount` is the number of likes on it, and `isLiked`
      holds exactly when the viewer liked it (never without a viewer); the
      owner carries the author's username and full name. */
  lemma CommentViewFields(users: seq<User>, likes: seq<Like>, viewer: Option<Id>, c: Comment)
    ensures var w := ViewOf(users, likes, viewer, c);
            w.id == c.id && w.content == c.content && w.createdAt == c.createdAt &&
            w.likesCount == |set i | 0 <= i < |likes| && likes[i].target == OnComment(c.id)| &&
            (w.isLiked <==> viewer.Some? && Like(OnComment(c.id), viewer.value) in likes) &&
            (w.owner.Some? <==> exists u :: u in users && u.id == c.owner) &&
            (w.owner.Some? ==> exists u :: u in users && u.id == c.owner &&
                                           w.owner.value == AuthorCard(u.username, u.fullName))
  {
    LikesCountIsNumberOfLikes(likes, OnComment(c.id));
    IsLikedIff(likes, OnComment(c.id), viewer);
    if FindKey(users, UserKey, c.owner).None? {
      assert forall u :: u in users ==> UserKey(u) != c.owner;
    }
  }

  /** `addComment` as written builds the same listing as `getVideoComments`
      and answers with it: no comment is stored. */
  method AddComment(store: Store, videoId: string, viewer: Option<Id>, page: Option<string>, limit: Option<string>)
      returns (r: Result<Page<CommentView>>)
    ensures r == VideoComments(store.comments, store.users, store.likes, videoId, viewer, page, limit)
  {
    if !IsValidObjectId(videoId) {
      return Err(ScriptError("input must be a 24 character hex string"));
    }
    var all := CommentList(store.comments, store.users, store.likes, videoId, viewer);
    r := Ok(Paginate(all, QueryNumber(page, DefaultPage), QueryNumber(limit, DefaultLimit)));
  }

  // ---------------------------------------------------------------------
  // updateComment and deleteComment
  // ---------------------------------------------------------------------

  /** The comment, found by a well-formed id and owned by the acting user. */
  function OwnedComment(comments: seq<Comment>, actor: Id, id: string, forbidden: string): (r: Result<Comment>)
    ensures r.Ok? ==> r.value in comments && r.value.id == id && r.value.owner == actor
    ensures r.Err? && r.error.MongooseError? <==> !IsValidObjectId(id)
    ensures IsValidObjectId(id) && FindKey(comments, CommentKey, id).None? ==> r == Err(ApiError(404, "Comment not found"))
    ensures IsValidObjectId(id) && FindKey(comments, CommentKey, id).Some? && FindKey(comments, CommentKey, id).value.owner != actor ==>
              r == Err(ApiError(400, forbidden))
  {
    match FindById(comments, CommentKey, id)
    case Err(e) => Err(e)
    case Ok(None) => Err(ApiError(404, "Comment not found"))
    case Ok(Some(c)) => if c.owner != actor then Err(ApiError(400, forbidden)) else Ok(c)
  }

  const EditForbidden := "Only comment owner can edit their comment"
  const DeleteForbidden := "only comment owner can delete their comment"

  /** The checks of `updateComment`, in order: content first. */
  function UpdateCommentCheck(comments: seq<Comment>, actor: Id, id: string, content: Option<string>): (r: Result<Comment>)
    ensures !Present(content) ==> r == Err(ApiError(400, "Content is required"))
    ensures Present(content) ==> r == OwnedComment(comments, actor, id, EditForbidden)
  {
    if !Present(content) then Err(ApiError(400, "Content is required"))
    else OwnedComment(comments, actor, id, EditForbidden)
  }

  function SetContent(content: string): Comment -> Comment {
    (c: Comment) => c.(content := content)
  }

  /** `updateComment`: the answer is the comment with its new content. */
  method UpdateComment(store: Store, actor: Id, id: string, content: Option<string>) returns (r: Result<Comment>)
    modifies store`comments
    ensures var c := UpdateCommentCheck(old(store.comments), actor, id, content);
            (c.Err? ==> r == Err(c.error) && store.comments == old(store.comments)) &&
            (c.Ok? ==> (r == Ok(SetContent(content.value)(c.value)) &&
                        store.comments == Update(old(store.comments), CommentKey, id, SetContent(content.value))))
  {
    var c := UpdateCommentCheck(store.comments, actor, id, content);
    if c.Err? {
      return Err(c.error);
    }
    store.comments := Update(store.comments, CommentKey, id, SetContent(content.value));
    return Ok(SetContent(content.value)(c.value));
  }

  /** An edit changes only the content of that one comment. */
  lemma EditChangesOnlyContent(comments: seq<Comment>, id: Id, content: string)
    ensures var r := Update(comments, CommentKey, id, SetContent(content));
            |r| == |comments| &&
            forall i :: 0 <= i < |r| ==>
              r[i] == comments[i].(content := r[i].content) &&
              (comments[i].id == id ==> r[i].content == content) &&
              (comments[i].id != id ==> r[i] == comments[i])
  {
  }

  function NotComment(id: Id): Comment -> bool { (c: Comment) => c.id != id }

  function NotLikeOf(commentId: Id, actor: Id): Like -> bool {
    (l: Like) => !(l.target == OnComment(commentId) && l.likedBy == actor)
  }

  /** `deleteComment`: the comment goes, and so do the requester's likes on it. */
  method DeleteComment(store: Store, actor: Id, id: string) returns (r: Result<Id>)
    modifies store`comments, store`likes
    ensures var c := OwnedComment(old(store.comments), actor, id, DeleteForbidden);
            (c.Err? ==> r == Err(c.error) && store.comments == old(store.comments) && store.likes == old(store.likes)) &&
            (c.Ok? ==> (r == Ok(id) &&
                        store.comments == Filter(old(store.comments), NotComment(id)) &&
                        store.likes == Filter(old(store.likes), NotLikeOf(id, actor))))
  {
    var c := OwnedComment(store.comments, actor, id, DeleteForbidden);
    if c.Err? {
      return Err(c.error);
    }
    store.comments := Filter(store.comments, NotComment(id));
    store.likes := Filter(store.likes, NotLikeOf(id, actor));
    return Ok(id);
  }

  /** After the delete the comment is gone and the requester no longer likes
      it; every other like survives, including other users' likes on it and
      the requester's likes on anything else. */
  lemma DeleteCommentRemovesExactly(comments: seq<Comment>, likes: seq<Like>, id: Id, actor: Id)
    ensures FindKey(Filter(comments, NotComment(id)), CommentKey, id).None?
    ensures forall c :: c in Filter(comments, NotComment(id)) <==> c in comments && c.id != id
    ensures !IsLiked(Filter(likes, NotLikeOf(id, actor)), OnComment(id), Some(actor))
    ensures forall l :: l in likes && !(l.target == OnComment(id) && l.likedBy == actor) ==> l in Filter(likes, NotLikeOf(id, actor))
  {
    IsLikedIff(Filter(likes, NotLikeOf(id, actor)), OnComment(id), Some(actor));
  }
}
