/** The video controller: the published-video listing (filter, sort, page),
    the detail view with its view count and watch-history side effects,
    publishing, and the three owner-guarded operations (update, delete,
    publish toggle). Uploads are parameters: the blob each one stored, or
    null when it failed. The ownership guards are modelled as the intended
    `owner == actor`. */
module VideoController {
  import opened Common
  import opened Collections
  import opened Models
  import opened Joins
  import opened Paging

  // ---------------------------------------------------------------------
  // getAllVideos
  // ---------------------------------------------------------------------

  /** A stage of the aggregation the handler assembles. */
  datatype Stage =
    | MatchText(query: string)
    | MatchOwner(owner: Id)
    | MatchPublished
    | SortOn(field: string, ascending: bool)

  /** `$regex` with option "i" on the title or on the description. */
  function TextMatches(q: string): Video -> bool {
    (v: Video) => ContainsIgnoreCase(v.title, q) || ContainsIgnoreCase(v.description, q)
  }

  function OwnedBy(owner: Id): Video -> bool {
    (v: Video) => v.owner == owner
  }

  function IsPublished(): Video -> bool {
    (v: Video) => v.isPublished
  }

  function ByViews(): Video -> int { (v: Video) => v.views }
  function ByDuration(): Video -> int { (v: Video) => v.duration }
  function ByCreatedAt(): Video -> int { (v: Video) => v.createdAt }
  function Unkeyed(): Video -> int { (v: Video) => 0 }

  /** The numeric fields a listing can be sorted on; any other name sorts on
      nothing and leaves the order as it was. */
  function SortKey(field: string): Video -> int {
    if field == "views" then ByViews()
    else if field == "duration" then ByDuration()
    else if field == "createdAt" then ByCreatedAt()
    else Unkeyed()
  }

  function Apply(st: Stage, vs: seq<Video>): seq<Video> {
    match st
    case MatchText(q) => Filter(vs, TextMatches(q))
    case MatchOwner(o) => Filter(vs, OwnedBy(o))
    case MatchPublished => Filter(vs, IsPublished())
    case SortOn(f, asc) => SortBy(vs, SortKey(f), asc)
  }

  /** The stages run one after the other over the collection. */
  function RunStages(stages: seq<Stage>, vs: seq<Video>): seq<Video>
    decreases |stages|
  {
    if stages == [] then vs else RunStages(stages[1..], Apply(stages[0], vs))
  }

  /** The field the listing is sorted on: `sortBy` when both `sortBy` and
      `sortType` are given, else `createdAt`. */
  function SortField(sortBy: Option<string>, sortType: Option<string>): string {
    if Present(sortBy) && Present(sortType) then sortBy.value else "createdAt"
  }

  /** Ascending only for an explicit `sortType` of "asc"; newest first by default. */
  function Ascending(sortBy: Option<string>, sortType: Option<string>): bool {
    Present(sortBy) && Present(sortType) && sortType.value == "asc"
  }

  function AnyVideo(): Video -> bool { (v: Video) => true }

  function TextFilter(query: Option<string>): Video -> bool {
    if Present(query) then TextMatches(query.value) else AnyVideo()
  }

  function OwnerFilter(userId: Option<string>): Video -> bool {
    if Present(userId) then OwnedBy(userId.value) else AnyVideo()
  }

  /** The videos the listing selects, as one condition. */
  function Selected(query: Option<string>, userId: Option<string>): Video -> bool {
    (v: Video) => TextFilter(query)(v) && OwnerFilter(userId)(v) && v.isPublished
  }

  /** The listing's owner, projected to its id and username (the stored
      avatar is a plain url string, so the path `avatar.url` selects nothing). */
  datatype OwnerDetails = OwnerDetails(id: Id, username: string)

  datatype VideoListing = VideoListing(video: Video, ownerDetails: OwnerDetails)

  function OwnerDetailsOf(users: seq<User>, v: Video): (r: Option<OwnerDetails>)
    ensures r.Some? <==> exists u :: u in users && u.id == v.owner
    ensures r.Some? ==> exists u :: u in users && u.id == v.owner && r.value == OwnerDetails(u.id, u.username)
  {
    match FindKey(users, UserKey, v.owner)
    case None => assert forall u :: u in users ==> UserKey(u) != v.owner; None
    case Some(u) => Some(OwnerDetails(u.id, u.username))
  }

  function HasOwner(users: seq<User>): Video -> bool {
    (v: Video) => OwnerDetailsOf(users, v).Some?
  }

  function ListingVideos(ls: seq<VideoListing>): (r: seq<Video>)
    ensures |r| == |ls|
    ensures forall i :: 0 <= i < |ls| ==> r[i] == ls[i].video
  {
    if ls == [] then [] else [ls[0].video] + ListingVideos(ls[1..])
  }

  /** `$lookup` of the owner followed by `$unwind`, which drops a video whose
      owner is missing: the listed videos are exactly those with an owner, in order. */
  function JoinOwners(users: seq<User>, vs: seq<Video>): (r: seq<VideoListing>)
    ensures ListingVideos(r) == Filter(vs, HasOwner(users))
    ensures forall l :: l in r ==> OwnerDetailsOf(users, l.video) == Some(l.ownerDetails)
    decreases |vs|
  {
    if vs == [] then []
    else
      var init := JoinOwners(users, vs[..|vs| - 1]);
      var last := vs[|vs| - 1];
      var tail := match OwnerDetailsOf(users, last)
                  case None => []
                  case Some(d) => [VideoListing(last, d)];
      ListingVideosAppend(init, tail);
      assert ListingVideos(tail) == (if HasOwner(users)(last) then [last] else []);
      init + tail
  }

  lemma ListingVideosAppend(a: seq<VideoListing>, b: seq<VideoListing>)
    ensures ListingVideos(a + b) == ListingVideos(a) + ListingVideos(b)
  {
    var l := ListingVideos(a + b);
    var r := ListingVideos(a) + ListingVideos(b);
    assert |l| == |r|;
    forall i | 0 <= i < |l| ensures l[i] == r[i] {
      if i < |a| { assert (a + b)[i] == a[i]; } else { assert (a + b)[i] == b[i - |a|]; }
    }
  }

  /** The listing before paging, as a reference definition: the selected
      videos sorted on the requested key, each with its owner. */
  function AllListings(videos: seq<Video>, users: seq<User>, query: Option<string>, sortBy: Option<string>,
                       sortType: Option<string>, userId: Option<string>): seq<VideoListing> {
    JoinOwners(users, SortBy(Filter(videos, Selected(query, userId)),
                             SortKey(SortField(sortBy, sortType)), Ascending(sortBy, sortType)))
  }

  /** Pushing a stage runs it after the ones already in the pipeline. */
  lemma {:induction false} RunStagesAppend(stages: seq<Stage>, st: Stage, vs: seq<Video>)
    ensures RunStages(stages + [st], vs) == Apply(st, RunStages(stages, vs))
    decreases |stages|
  {
    if stages == [] {
      assert [] + [st] == [st];
      assert [st][1..] == [];
    } else {
      assert (stages + [st])[0] == stages[0];
      assert (stages + [st])[1..] == stages[1..] + [st];
      RunStagesAppend(stages[1..], st, Apply(stages[0], vs));
    }
  }

  lemma SortStage(field: string, ascending: bool, vs: seq<Video>)
    ensures Apply(SortOn(field, ascending), vs) == SortBy(vs, SortKey(field), ascending)
  {
  }

  /** The condition a `$match` stage filters on. */
  function MatchCondition(st: Stage): Video -> bool
    requires !st.SortOn?
  {
    match st
    case MatchText(q) => TextMatches(q)
    case MatchOwner(o) => OwnedBy(o)
    case MatchPublished => IsPublished()
  }

  /** Pushing a `$match` onto a pipeline that filters on `p` filters on `p`
      and the stage's condition. */
  lemma PushMatch(pipeline: seq<Stage>, st: Stage, vs: seq<Video>, p: Video -> bool, pq: Video -> bool)
    requires !st.SortOn? && RunStages(pipeline, vs) == Filter(vs, p)
    requires forall v :: pq(v) == (p(v) && MatchCondition(st)(v))
    ensures RunStages(pipeline + [st], vs) == Filter(vs, pq)
  {
    RunStagesAppend(pipeline, st, vs);
    assert Apply(st, Filter(vs, p)) == Filter(Filter(vs, p), MatchCondition(st));
    FilterFilter(vs, p, MatchCondition(st), pq);
  }

  /** The `$match` stages the handler pushes, in its order: the text query
      when given, the owner when given, and always the published flag. */
  function MatchPipeline(query: Option<string>, userId: Option<string>): seq<Stage> {
    (if Present(query) then [MatchText(query.value)] else []) +
    (if Present(userId) then [MatchOwner(userId.value)] else []) +
    [MatchPublished]
  }

  /** The `$match` stages select exactly the listing's videos, in collection order. */
  lemma MatchPipelineSelects(query: Option<string>, userId: Option<string>, vs: seq<Video>)
    ensures RunStages(MatchPipeline(query, userId), vs) == Filter(vs, Selected(query, userId))
  {
    var t := TextFilter(query);
    var o := OwnerFilter(userId);
    var p1: seq<Stage> := if Present(query) then [MatchText(query.value)] else [];
    var p2: seq<Stage> := p1 + (if Present(userId) then [MatchOwner(userId.value)] else []);
    FilterAll(vs, AnyVideo());
    if Present(query) {
      PushMatch([], MatchText(query.value), vs, AnyVideo(), t);
      assert [] + [MatchText(query.value)] == p1;
    } else {
      FilterExt(vs, AnyVideo(), t);
    }
    if Present(userId) {
      PushMatch(p1, MatchOwner(userId.value), vs, t, Both(t, o));
    } else {
      assert p2 == p1;
      FilterExt(vs, t, Both(t, o));
    }
    PushMatch(p2, MatchPublished, vs, Both(t, o), Selected(query, userId));
    assert p2 + [MatchPublished] == MatchPipeline(query, userId);
  }

  /** Pushing the requested `$sort` onto a pipeline that selects the
      listing's videos, and joining the owners, gives the listing. */
  lemma ListingOfPipeline(pipeline: seq<Stage>, vs: seq<Video>, users: seq<User>, query: Option<string>,
                          sortBy: Option<string>, sortType: Option<string>, userId: Option<string>)
    requires RunStages(pipeline, vs) == Filter(vs, Selected(query, userId))
    ensures var sort := SortOn(SortField(sortBy, sortType), Ascending(sortBy, sortType));
            JoinOwners(users, RunStages(pipeline + [sort], vs)) == AllListings(vs, users, query, sortBy, sortType, userId)
  {
    var field := SortField(sortBy, sortType);
    var ascending := Ascending(sortBy, sortType);
    RunStagesAppend(pipeline, SortOn(field, ascending), vs);
    SortStage(field, ascending, Filter(vs, Selected(query, userId)));
  }

  /** Every listed video is published, matches the query when one is given
      and belongs to `userId` when one is given; its owner details are its
      owner's. */
  lemma ListedVideosAreSelected(videos: seq<Video>, users: seq<User>, query: Option<string>,
                                sortBy: Option<string>, sortType: Option<string>, userId: Option<string>)
    ensures var ls := AllListings(videos, users, query, sortBy, sortType, userId);
            forall l :: l in ls ==>
              l.video in videos && l.video.isPublished &&
              (Present(query) ==> (ContainsIgnoreCase(l.video.title, query.value) ||
                                   ContainsIgnoreCase(l.video.description, query.value))) &&
              (Present(userId) ==> l.video.owner == userId.value) &&
              OwnerDetailsOf(users, l.video) == Some(l.ownerDetails)
  {
    var sel := Selected(query, userId);
    var filtered := Filter(videos, sel);
    var sorted := SortBy(filtered, SortKey(SortField(sortBy, sortType)), Ascending(sortBy, sortType));
    var ls := JoinOwners(users, sorted);
    SortByMembers(filtered, SortKey(SortField(sortBy, sortType)), Ascending(sortBy, sortType));
    var lv := ListingVideos(ls);
    assert ls == AllListings(videos, users, query, sortBy, sortType, userId);
    forall l | l in ls
      ensures l.video in videos && l.video.isPublished &&
              (Present(query) ==> (ContainsIgnoreCase(l.video.title, query.value) ||
                                   ContainsIgnoreCase(l.video.description, query.value))) &&
              (Present(userId) ==> l.video.owner == userId.value) &&
              OwnerDetailsOf(users, l.video) == Some(l.ownerDetails)
    {
      var i :| 0 <= i < |ls| && ls[i] == l;
      assert lv[i] == l.video && lv[i] in lv;
      assert l.video in sorted;
      assert l.video in filtered;
      assert sel(l.video);
      assert TextFilter(query)(l.video) && OwnerFilter(userId)(l.video);
    }
  }

  /** Every selected video whose owner exists is listed. */
  lemma SelectedVideosAreListed(videos: seq<Video>, users: seq<User>, query: Option<string>,
                                sortBy: Option<string>, sortType: Option<string>, userId: Option<string>)
    ensures var ls := AllListings(videos, users, query, sortBy, sortType, userId);
            forall v :: v in videos && Selected(query, userId)(v) && HasOwner(users)(v) ==>
              exists l :: l in ls && l.video == v
  {
    var sel := Selected(query, userId);
    var filtered := Filter(videos, sel);
    var sorted := SortBy(filtered, SortKey(SortField(sortBy, sortType)), Ascending(sortBy, sortType));
    var ls := JoinOwners(users, sorted);
    SortByMembers(filtered, SortKey(SortField(sortBy, sortType)), Ascending(sortBy, sortType));
    var lv := ListingVideos(ls);
    assert lv == Filter(sorted, HasOwner(users));
    forall v | v in videos && sel(v) && HasOwner(users)(v)
      ensures exists l :: l in ls && l.video == v
    {
      assert v in filtered;
      assert v in lv;
      var i :| 0 <= i < |lv| && lv[i] == v;
      assert ls[i] in ls;
    }
  }

  /** The listing is ordered on the requested key, newest first by default,
      and it is a permutation of the selected videos that have an owner. */
  lemma ListingsOrderedAndComplete(videos: seq<Video>, users: seq<User>, query: Option<string>,
                                   sortBy: Option<string>, sortType: Option<string>, userId: Option<string>)
    ensures var lv := ListingVideos(AllListings(videos, users, query, sortBy, sortType, userId));
            Ordered(lv, SortKey(SortField(sortBy, sortType)), Ascending(sortBy, sortType)) &&
            multiset(lv) == multiset(Filter(Filter(videos, Selected(query, userId)), HasOwner(users)))
    ensures !(Present(sortBy) && Present(sortType)) ==>
              Ordered(ListingVideos(AllListings(videos, users, query, sortBy, sortType, userId)), ByCreatedAt(), false)
  {
    var key := SortKey(SortField(sortBy, sortType));
    var asc := Ascending(sortBy, sortType);
    var sel := Filter(videos, Selected(query, userId));
    var sorted := SortBy(sel, key, asc);
    var lv := ListingVideos(JoinOwners(users, sorted));
    assert lv == Filter(sorted, HasOwner(users));
    FilterOrdered(sorted, HasOwner(users), key, asc);
    FilterPermutation(sorted, sel, HasOwner(users));
    if !(Present(sortBy) && Present(sortType)) {
      assert key == ByCreatedAt() && !asc;
    }
  }

  /** `getAllVideos`. The handler pushes the stages one by one, runs them,
      joins the owners and hands the result to the paginator with `page`
      and `limit` parsed from the query string. */
  method GetAllVideos(store: Store, page: Option<string>, limit: Option<string>, query: Option<string>,
                      sortBy: Option<string>, sortType: Option<string>, userId: Option<string>)
      returns (r: Result<Page<VideoListing>>)
    ensures r.Err? <==> Present(userId) && !IsValidObjectId(userId.value)
    ensures r.Err? ==> r.error == ApiError(400, "Invalid userId format.")
    ensures r.Ok? ==> r.value == Paginate(AllListings(store.videos, store.users, query, sortBy, sortType, userId),
                                          QueryNumber(page, DefaultPage), QueryNumber(limit, DefaultLimit))
  {
    var pipeline: seq<Stage> := [];
    if Present(query) {
      pipeline := pipeline + [MatchText(query.value)];
    }
    if Present(userId) {
      if !IsValidObjectId(userId.value) {
        return Err(ApiError(400, "Invalid userId format."));
      }
      pipeline := pipeline + [MatchOwner(userId.value)];
    }
    pipeline := pipeline + [MatchPublished];
    assert pipeline == MatchPipeline(query, userId);
    MatchPipelineSelects(query, userId, store.videos);
    var sort: Stage;
    if Present(sortBy) && Present(sortType) {
      sort := SortOn(sortBy.value, sortType.value == "asc");
    } else {
      sort := SortOn("createdAt", false);
    }
    assert sort == SortOn(SortField(sortBy, sortType), Ascending(sortBy, sortType));
    ListingOfPipeline(pipeline, store.videos, store.users, query, sortBy, sortType, userId);
    pipeline := pipeline + [sort];
    var listings := JoinOwners(store.users, RunStages(pipeline, store.videos));
    return Ok(Paginate(listings, QueryNumber(page, DefaultPage), QueryNumber(limit, DefaultLimit)));
  }

  // ---------------------------------------------------------------------
  // getVideoById
  // ---------------------------------------------------------------------

  /** The owner of a video as the detail view shows it. */
  datatype ChannelBadge = ChannelBadge(id: Id, username: string, subscribersCount: nat, isSubscribed: bool)

  datatype VideoDetail = VideoDetail(
    id: Id,
    videoFileUrl: string,
    title: string,
    description: string,
    views: int,
    createdAt: int,
    duration: int,
    owner: Option<ChannelBadge>,
    likesCount: nat,
    isLiked: bool)

  function BadgeOf(users: seq<User>, subs: seq<Subscription>, owner: Id, viewer: Option<Id>): Option<ChannelBadge> {
    match FindKey(users, UserKey, owner)
    case None => None
    case Some(u) => Some(ChannelBadge(u.id, u.username, |SubscribersOf(subs, u.id)|, IsSubscribed(subs, u.id, viewer)))
  }

  /** `video[0]` of the detail aggregation; absent when no video has the id. */
  function VideoDetailOf(videos: seq<Video>, users: seq<User>, likes: seq<Like>, subs: seq<Subscription>,
                         id: Id, viewer: Option<Id>): (r: Option<VideoDetail>)
    ensures r.Some? <==> exists v :: v in videos && v.id == id
    ensures r.Some? ==> r.value.id == id
  {
    match FindKey(videos, VideoKey, id)
    case None => assert forall v :: v in videos ==> VideoKey(v) != id; None
    case Some(v) =>
      Some(VideoDetail(v.id, v.videoFile.url, v.title, v.description, v.views, v.createdAt, v.duration,
                       BadgeOf(users, subs, v.owner, viewer),
                       LikesCount(likes, OnVideo(v.id)), IsLiked(likes, OnVideo(v.id), viewer)))
  }

  /** The viewer-relative fields of the detail view: the number of likes on
      the video and whether the viewer is among their authors; the owner's
      subscriber count and whether the viewer subscribes. */
  lemma VideoDetailFields(videos: seq<Video>, users: seq<User>, likes: seq<Like>, subs: seq<Subscription>,
                          id: Id, viewer: Option<Id>)
    requires VideoDetailOf(videos, users, likes, subs, id, viewer).Some?
    ensures var d := VideoDetailOf(videos, users, likes, subs, id, viewer).value;
            d.likesCount == |set i | 0 <= i < |likes| && likes[i].target == OnVideo(id)| &&
            (d.isLiked <==> viewer.Some? && Like(OnVideo(id), viewer.value) in likes)
    ensures var d := VideoDetailOf(videos, users, likes, subs, id, viewer).value;
            d.owner.Some? ==>
              d.owner.value.subscribersCount == |set i | 0 <= i < |subs| && subs[i].channel == d.owner.value.id| &&
              (d.owner.value.isSubscribed <==> viewer.Some? && Subscription(viewer.value, d.owner.value.id) in subs)
  {
    LikesCountIsNumberOfLikes(likes, OnVideo(id));
    IsLikedIff(likes, OnVideo(id), viewer);
    var d := VideoDetailOf(videos, users, likes, subs, id, viewer).value;
    if d.owner.Some? {
      SubscribersCountIsNumberOfSubscriptions(subs, d.owner.value.id);
      IsSubscribedIff(subs, d.owner.value.id, viewer);
    }
  }

  function AddView(): Video -> Video {
    (v: Video) => v.(views := v.views + 1)
  }

  function Watch(videoId: Id): User -> User {
    (u: User) => u.(watchHistory := AddToSet(u.watchHistory, videoId))
  }

  /** A detail fetch adds exactly one view to that video and changes no other. */
  lemma FetchCountsOneView(videos: seq<Video>, id: Id)
    requires FindKey(videos, VideoKey, id).Some?
    ensures var v := FindKey(videos, VideoKey, id).value;
            FindKey(Update(videos, VideoKey, id, AddView()), VideoKey, id) == Some(v.(views := v.views + 1))
    ensures forall j :: j != id ==> FindKey(Update(videos, VideoKey, id, AddView()), VideoKey, j) == FindKey(videos, VideoKey, j)
  {
    FindAfterUpdate(videos, VideoKey, id, AddView(), id);
    forall j | j != id
      ensures FindKey(Update(videos, VideoKey, id, AddView()), VideoKey, j) == FindKey(videos, VideoKey, j)
    {
      FindAfterUpdate(videos, VideoKey, id, AddView(), j);
    }
  }

  /** The watch history gains the video once: a duplicate-free history stays
      duplicate-free with the video in it exactly once, and a second fetch
      leaves it as the first one did. */
  lemma WatchAddsOnce(u: User, videoId: Id)
    requires NoDuplicates(u.watchHistory)
    ensures var h := Watch(videoId)(u).watchHistory;
            NoDuplicates(h) && Occurrences(h, videoId) == 1 && Watch(videoId)(Watch(videoId)(u)) == Watch(videoId)(u)
  {
    AddToSetOnce(u.watchHistory, videoId);
    AddToSetIdempotent(u.watchHistory, videoId);
  }

  /** `getVideoById`. Without a viewer the user-id check fails (400). The
      aggregation yields an array, so the 404 branch never fires: an unknown
      id answers with no video, and its view count and the viewer's watch
      history are still written. The detail shows the counts read before
      this fetch's own view is added. */
  method GetVideoById(store: Store, videoId: string, viewer: Option<Id>) returns (r: Result<Option<VideoDetail>>)
    modifies store`videos, store`users
    ensures !IsValidObjectId(videoId) ==>
              r == Err(ApiError(400, "Invalid videoId format.")) && unchanged(store)
    ensures IsValidObjectId(videoId) && (viewer.None? || !IsValidObjectId(viewer.value)) ==>
              r == Err(ApiError(400, "Invalid userId format.")) && unchanged(store)
    ensures IsValidObjectId(videoId) && viewer.Some? && IsValidObjectId(viewer.value) ==>
              r == Ok(VideoDetailOf(old(store.videos), old(store.users), store.likes, store.subscriptions, videoId, viewer)) &&
              store.videos == Update(old(store.videos), VideoKey, videoId, AddView()) &&
              store.users == Update(old(store.users), UserKey, viewer.value, Watch(videoId))
  {
    if !IsValidObjectId(videoId) {
      return Err(ApiError(400, "Invalid videoId format."));
    }
    if viewer.None? || !IsValidObjectId(viewer.value) {
      return Err(ApiError(400, "Invalid userId format."));
    }
    var detail := VideoDetailOf(store.videos, store.users, store.likes, store.subscriptions, videoId, viewer);
    store.videos := Update(store.videos, VideoKey, videoId, AddView());
    store.users := Update(store.users, UserKey, viewer.value, Watch(videoId));
    return Ok(detail);
  }

  // ---------------------------------------------------------------------
  // publishAVideo
  // ---------------------------------------------------------------------

  /** `[title, description].some(field => field && field.trim() === "")` */
  predicate BlankField(field: Option<string>) {
    Present(field) && Trim(field.value) == ""
  }

  /** The file parts of a multipart upload (`req.files`): the local path
      of each part that was sent, `None` for a part the request lacks. */
  datatype UploadedFiles = UploadedFiles(videoFile: Option<string>, thumbnail: Option<string>)

  /** `req.files && req.files.<part>[0].path`: undefined without `req.files`;
      a TypeError when `req.files` exists but the part is missing, since
      `[0]` is then read from undefined. */
  function LocalPath(files: Option<UploadedFiles>, part: Option<string>): (r: Result<Option<string>>)
    ensures files.None? ==> r == Ok(None)
    ensures files.Some? ==> (r.Err? <==> part.None?) && (r.Err? ==> r.error.ScriptError?)
    ensures files.Some? && part.Some? ==> r == Ok(part)
  {
    if files.None? then Ok(None)
    else if part.None? then Err(ScriptError("Cannot read properties of undefined (reading '0')"))
    else Ok(part)
  }

  /** The request passes the field check and both local paths are
      non-empty, so the two uploads to the cloud are attempted. */
  predicate UploadsReached(title: Option<string>, description: Option<string>, files: Option<UploadedFiles>) {
    !BlankField(title) && !BlankField(description) &&
    files.Some? && Present(files.value.videoFile) && Present(files.value.thumbnail)
  }

  /** The video `Videos.create` stores, or the error: a missing title,
      description or duration fails the schema's required validators. */
  function PublishDecision(actor: Id, id: Id, createdAt: int, title: Option<string>, description: Option<string>,
                           files: Option<UploadedFiles>,
                           videoUpload: Option<Blob>, thumbnailUpload: Option<Blob>, duration: Option<int>)
      : (r: Result<Video>)
    ensures r.Ok? ==> !r.value.isPublished && r.value.owner == actor && r.value.views == 0 && r.value.id == id
    ensures r.Ok? ==> files.Some? && Present(files.value.videoFile) && Present(files.value.thumbnail)
    ensures r.Ok? ==> title == Some(r.value.title) && description == Some(r.value.description) &&
                      duration == Some(r.value.duration) && createdAt == r.value.createdAt &&
                      videoUpload == Some(r.value.videoFile) && thumbnailUpload == Some(r.value.thumbnail)
    ensures BlankField(title) || BlankField(description) ==>
              r == Err(ApiError(400, "All fields (title and description) are required."))
    ensures files.None? && !BlankField(title) && !BlankField(description) ==>
              r == Err(ApiError(400, "Video file is required for upload."))
    ensures files.Some? && (files.value.videoFile.None? || files.value.thumbnail.None?) &&
            !BlankField(title) && !BlankField(description) ==>
              r.Err? && r.error.ScriptError?
    ensures files.Some? && files.value.videoFile.Some? && files.value.thumbnail.Some? &&
            (!Present(files.value.videoFile) || !Present(files.value.thumbnail)) &&
            !BlankField(title) && !BlankField(description) ==>
              r.Err? && r.error.ApiError? && r.error.statusCode == 400
    ensures UploadsReached(title, description, files) && videoUpload.None? ==>
              r == Err(ApiError(500, "Video upload to cloud failed. Please try again."))
    ensures UploadsReached(title, description, files) && videoUpload.Some? && thumbnailUpload.None? ==>
              r == Err(ApiError(500, "Thumbnail upload to cloud failed. Please try again."))
    ensures UploadsReached(title, description, files) && videoUpload.Some? && thumbnailUpload.Some? ==>
              (r.Ok? <==> Present(title) && Present(description) && duration.Some?) &&
              (r.Err? ==> r.error.MongooseError?)
  {
    if BlankField(title) || BlankField(description) then
      Err(ApiError(400, "All fields (title and description) are required."))
    else
      match LocalPath(files, if files.Some? then files.value.videoFile else None)
      case Err(e) => Err(e)
      case Ok(videoPath) =>
        match LocalPath(files, if files.Some? then files.value.thumbnail else None)
        case Err(e) => Err(e)
        case Ok(thumbnailPath) =>
          if !Present(videoPath) then Err(ApiError(400, "Video file is required for upload."))
          else if !Present(thumbnailPath) then Err(ApiError(400, "Thumbnail image is required for upload."))
          else if videoUpload.None? then Err(ApiError(500, "Video upload to cloud failed. Please try again."))
          else if thumbnailUpload.None? then Err(ApiError(500, "Thumbnail upload to cloud failed. Please try again."))
          else if !Present(title) || !Present(description) || duration.None? then
            Err(MongooseError("Video validation failed"))
          else
            Ok(Video(id, videoUpload.value, thumbnailUpload.value, title.value, description.value,
                     duration.value, 0, false, actor, createdAt))
  }

  /** `publishAVideo`: on success the new video is appended, unpublished and
      owned by the acting user. `id` and `createdAt` are the values the
      database assigns. */
  method PublishAVideo(store: Store, actor: Id, id: Id, createdAt: int, title: Option<string>, description: Option<string>,
                       files: Option<UploadedFiles>,
                       videoUpload: Option<Blob>, thumbnailUpload: Option<Blob>, duration: Option<int>)
      returns (r: Result<Video>)
    modifies store`videos
    ensures r == PublishDecision(actor, id, createdAt, title, description, files,
                                 videoUpload, thumbnailUpload, duration)
    ensures r.Ok? ==> store.videos == old(store.videos) + [r.value]
    ensures r.Err? ==> store.videos == old(store.videos)
  {
    r := PublishDecision(actor, id, createdAt, title, description, files,
                         videoUpload, thumbnailUpload, duration);
    if r.Ok? {
      store.videos := store.videos + [r.value];
    }
  }

  // ---------------------------------------------------------------------
  // The owner-guarded operations
  // ---------------------------------------------------------------------

  /** The checks shared by update, delete and toggle: a well-formed id, an
      existing video, and the acting user as its owner. */
  function OwnedVideo(videos: seq<Video>, actor: Id, id: string, notFound: string, forbidden: string)
      : (r: Result<Video>)
    ensures r.Ok? ==> r.value in videos && r.value.id == id && r.value.owner == actor
    ensures r.Err? ==> r.error.ApiError?
    ensures !IsValidObjectId(id) ==> r == Err(ApiError(400, "Invalid videoId format."))
    ensures IsValidObjectId(id) && (forall v :: v in videos ==> v.id != id) ==> r == Err(ApiError(404, notFound))
  {
    if !IsValidObjectId(id) then Err(ApiError(400, "Invalid videoId format."))
    else
      match FindKey(videos, VideoKey, id)
      case None => Err(ApiError(404, notFound))
      case Some(v) => if v.owner != actor then Err(ApiError(403, forbidden)) else Ok(v)
  }

  /** A user who does not own an existing video is refused with 403. */
  lemma NonOwnerIsForbidden(videos: seq<Video>, actor: Id, id: string, notFound: string, forbidden: string)
    requires IsValidObjectId(id) && FindKey(videos, VideoKey, id).Some?
    requires FindKey(videos, VideoKey, id).value.owner != actor
    ensures OwnedVideo(videos, actor, id, notFound, forbidden) == Err(ApiError(403, forbidden))
  {
  }

  /** The owner of an existing video passes the checks. */
  lemma OwnerIsAdmitted(videos: seq<Video>, actor: Id, id: string, notFound: string, forbidden: string)
    requires IsValidObjectId(id) && FindKey(videos, VideoKey, id).Some?
    requires FindKey(videos, VideoKey, id).value.owner == actor
    ensures OwnedVideo(videos, actor, id, notFound, forbidden) == Ok(FindKey(videos, VideoKey, id).value)
  {
  }

  /** The guard as written, `owner.toString() !== req.user && req.user._id.toString()`:
      `!==` binds tighter than `&&`, and a string is never strictly equal to
      the user object, so the guard holds whenever the acting user's id is a
      non-empty string, whoever owns the video. */
  predicate GuardFiresAsWritten(owner: Id, actor: Id) {
    actor != ""
  }

  /** The checks with the guard as written. */
  function OwnedVideoAsWritten(videos: seq<Video>, actor: Id, id: string, notFound: string, forbidden: string)
      : (r: Result<Video>)
    ensures r.Ok? ==> r.value in videos && r.value.id == id && actor == ""
  {
    if !IsValidObjectId(id) then Err(ApiError(400, "Invalid videoId format."))
    else
      match FindKey(videos, VideoKey, id)
      case None => Err(ApiError(404, notFound))
      case Some(v) => if GuardFiresAsWritten(v.owner, actor) then Err(ApiError(403, forbidden)) else Ok(v)
  }

  /** As written, the owner of an existing video is refused with 403 too:
      no authenticated user can update, delete or toggle a video. */
  lemma OwnerIsRefusedAsWritten(videos: seq<Video>, actor: Id, id: string, notFound: string, forbidden: string)
    requires IsValidObjectId(id) && IsValidObjectId(actor) && FindKey(videos, VideoKey, id).Some?
    requires FindKey(videos, VideoKey, id).value.owner == actor
    ensures OwnedVideoAsWritten(videos, actor, id, notFound, forbidden) == Err(ApiError(403, forbidden))
    ensures OwnedVideo(videos, actor, id, notFound, forbidden).Ok?
  {
    assert |actor| > 0 by { assert |actor| == 24 || |actor| == 12; }
  }

  const UpdateForbidden := "You are not authorized to update this video."
  const DeleteForbidden := "You are not authorized to delete this video."
  const ToggleForbidden := "You are not authorized to change the publish status of this video."

  function Retitle(title: string, description: string, thumbnail: Blob): Video -> Video {
    (v: Video) => v.(title := title, description := description, thumbnail := thumbnail)
  }

  /** The updated video `updateVideo` writes, or the error, in the handler's order. */
  function UpdateDecision(videos: seq<Video>, actor: Id, id: string, title: Option<string>, description: Option<string>,
                          thumbnailPath: Option<string>, upload: Option<Blob>): (r: Result<Video>)
    ensures r.Ok? ==> Present(title) && Present(description) && Present(thumbnailPath) && upload.Some?
    ensures r.Ok? ==> exists v :: v in videos && v.id == id && v.owner == actor &&
                                 r.value == Retitle(title.value, description.value, upload.value)(v)
  {
    if !IsValidObjectId(id) then Err(ApiError(400, "Invalid videoId format."))
    else if !(Present(title) && Present(description)) then Err(ApiError(400, "Both title and description are required."))
    else
      match OwnedVideo(videos, actor, id, "Video not found.", UpdateForbidden)
      case Err(e) => Err(e)
      case Ok(v) =>
        if !Present(thumbnailPath) then Err(ApiError(400, "New thumbnail image is required."))
        else if upload.None? then Err(ApiError(500, "Thumbnail upload to cloud failed. Please try again."))
        else Ok(Retitle(title.value, description.value, upload.value)(v))
  }

  /** `updateVideo`: only the title, the description and the thumbnail of
      the one video change; any refusal leaves the collection as it was. */
  method UpdateVideo(store: Store, actor: Id, id: string, title: Option<string>, description: Option<string>,
                     thumbnailPath: Option<string>, upload: Option<Blob>) returns (r: Result<Video>)
    modifies store`videos
    ensures r == UpdateDecision(old(store.videos), actor, id, title, description, thumbnailPath, upload)
    ensures r.Ok? ==> store.videos == Update(old(store.videos), VideoKey, id, Retitle(title.value, description.value, upload.value))
    ensures r.Err? ==> store.videos == old(store.videos)
  {
    r := UpdateDecision(store.videos, actor, id, title, description, thumbnailPath, upload);
    if r.Ok? {
      store.videos := Update(store.videos, VideoKey, id, Retitle(title.value, description.value, upload.value));
    }
  }

  function NotVideo(id: Id): Video -> bool { (v: Video) => v.id != id }
  function NotOnVideo(id: Id): Like -> bool { (l: Like) => l.target != OnVideo(id) }
  function NotUnderVideo(id: Id): Comment -> bool { (c: Comment) => c.video != id }

  /** After the cascade no video has the id, no like names the video and no
      comment is on it; every other record is kept, in order. */
  lemma DeleteCascadeRemovesExactly(videos: seq<Video>, likes: seq<Like>, comments: seq<Comment>, id: Id)
    ensures forall v :: v in Filter(videos, NotVideo(id)) <==> v in videos && v.id != id
    ensures forall l :: l in Filter(likes, NotOnVideo(id)) <==> l in likes && l.target != OnVideo(id)
    ensures forall c :: c in Filter(comments, NotUnderVideo(id)) <==> c in comments && c.video != id
    ensures |likes| - |Filter(likes, NotOnVideo(id))| == LikesCount(likes, OnVideo(id))
  {
    FilterSplit(likes, OnTarget(OnVideo(id)), NotOnVideo(id));
  }

  /** `deleteVideo`: the video, every like on it and every comment on it go. */
  method DeleteVideo(store: Store, actor: Id, id: string) returns (r: Result<()>)
    modifies store`videos, store`likes, store`comments
    ensures var checked := OwnedVideo(old(store.videos), actor, id, "Video not found.", DeleteForbidden);
            (checked.Err? ==> r == Err(checked.error) && unchanged(store)) &&
            (checked.Ok? ==> (r == Ok(()) &&
                              store.videos == Filter(old(store.videos), NotVideo(id)) &&
                              store.likes == Filter(old(store.likes), NotOnVideo(id)) &&
                              store.comments == Filter(old(store.comments), NotUnderVideo(id))))
  {
    var checked := OwnedVideo(store.videos, actor, id, "Video not found.", DeleteForbidden);
    if checked.Err? {
      return Err(checked.error);
    }
    store.videos := Filter(store.videos, NotVideo(id));
    store.likes := Filter(store.likes, NotOnVideo(id));
    store.comments := Filter(store.comments, NotUnderVideo(id));
    return Ok(());
  }

  function Unpublish(): Video -> Video {
    (v: Video) => v.(isPublished := false)
  }

  /** `togglePublishStatus` as written: `!video && video.isPublished` is
      false for a found video, so the toggle always unpublishes. */
  method TogglePublishStatus(store: Store, actor: Id, id: string) returns (r: Result<bool>)
    modifies store`videos
    ensures var checked := OwnedVideo(old(store.videos), actor, id, "Video not found", ToggleForbidden);
            (checked.Err? ==> r == Err(checked.error) && store.videos == old(store.videos)) &&
            (checked.Ok? ==> r == Ok(false) && store.videos == Update(old(store.videos), VideoKey, id, Unpublish()))
  {
    var checked := OwnedVideo(store.videos, actor, id, "Video not found", ToggleForbidden);
    if checked.Err? {
      return Err(checked.error);
    }
    store.videos := Update(store.videos, VideoKey, id, Unpublish());
    return Ok(false);
  }

  /** Toggling twice never republishes a video. */
  lemma ToggleNeverPublishes(videos: seq<Video>, id: Id)
    ensures var once := Update(videos, VideoKey, id, Unpublish());
            Update(once, VideoKey, id, Unpublish()) == once &&
            forall v :: v in once && v.id == id ==> !v.isPublished
  {
    UpdateCompose(videos, VideoKey, id, Unpublish(), Unpublish(), Unpublish());
  }
}
