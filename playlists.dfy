/** The playlist controller: creating, listing a user's playlists with their
    totals, fetching one playlist with its published videos, adding and
    removing a video, deleting and renaming. A playlist lists video ids;
    `$lookup` over that list yields the videos whose id is in it, in the
    order of the video collection, each once. The ownership guards are
    modelled as the intended `owner == actor`. */
module PlaylistController {
  import opened Common
  import opened Collections
  import opened Models
  import opened VideoController

  // ---------------------------------------------------------------------
  // The playlist's videos
  // ---------------------------------------------------------------------

  function Listed(ids: seq<Id>): Video -> bool {
    (v: Video) => v.id in ids
  }

  /** `$lookup` from "videos" with localField "videos". */
  function Resolve(videos: seq<Video>, ids: seq<Id>): seq<Video> {
    Filter(videos, Listed(ids))
  }

  function ListedViews(ids: seq<Id>): Video -> int {
    (v: Video) => if v.id in ids then v.views else 0
  }

  function ListedPublishedViews(ids: seq<Id>): Video -> int {
    (v: Video) => if v.id in ids && v.isPublished then v.views else 0
  }

  // ---------------------------------------------------------------------
  // getUserPlaylists
  // ---------------------------------------------------------------------

  datatype PlaylistSummary = PlaylistSummary(
    id: Id,
    name: string,
    description: string,
    totalVideos: nat,
    totalViews: int,
    firstVideoThumbnail: Option<string>,
    ownerUsername: Option<string>)

  function UsernameOf(users: seq<User>, id: Id): Option<string> {
    match FindKey(users, UserKey, id)
    case None => None
    case Some(u) => Some(u.username)
  }

  function Summary(videos: seq<Video>, users: seq<User>, p: Playlist): PlaylistSummary {
    var vs := Resolve(videos, p.videos);
    PlaylistSummary(p.id, p.name, p.description, |vs|, SumOf(vs, ByViews()),
                    if vs == [] then None else Some(vs[0].thumbnail.url),
                    UsernameOf(users, p.owner))
  }

  /** `totalVideos` counts the videos of the collection listed in the
      playlist (an id listed twice, or listing no video, adds nothing);
      `totalViews` sums their views. */
  lemma SummaryTotals(videos: seq<Video>, users: seq<User>, p: Playlist)
    ensures var s := Summary(videos, users, p);
            s.totalVideos == |set i | 0 <= i < |videos| && videos[i].id in p.videos| &&
            s.totalViews == SumOf(videos, ListedViews(p.videos))
  {
    FilterCount(videos, Listed(p.videos));
    assert Positions(videos, Listed(p.videos)) == set i | 0 <= i < |videos| && videos[i].id in p.videos;
    SumOfFilter(videos, Listed(p.videos), ByViews(), ListedViews(p.videos));
  }

  /** `firstVideoThumbnail` is the thumbnail of the first video of the
      collection the playlist lists, and absent when it lists none. */
  lemma FirstThumbnail(videos: seq<Video>, users: seq<User>, p: Playlist)
    ensures var s := Summary(videos, users, p);
            (s.firstVideoThumbnail.None? <==> forall v :: v in videos ==> v.id !in p.videos) &&
            (s.firstVideoThumbnail.Some? ==>
               exists i :: 0 <= i < |videos| && videos[i].id in p.videos &&
                           s.firstVideoThumbnail.value == videos[i].thumbnail.url &&
                           forall j :: 0 <= j < i ==> videos[j].id !in p.videos)
  {
    var vs := Resolve(videos, p.videos);
    if vs != [] {
      FirstOfFilter(videos, Listed(p.videos));
    }
  }

  /** The first element a filter keeps is the first element that passes. */
  lemma {:induction false} FirstOfFilter(s: seq<Video>, p: Video -> bool)
    requires Filter(s, p) != []
    ensures exists i :: 0 <= i < |s| && p(s[i]) && Filter(s, p)[0] == s[i] && forall j :: 0 <= j < i ==> !p(s[j])
    decreases |s|
  {
    var init := s[..|s| - 1];
    if Filter(init, p) != [] {
      FirstOfFilter(init, p);
      var i :| 0 <= i < |init| && p(init[i]) && Filter(init, p)[0] == init[i] && forall j :: 0 <= j < i ==> !p(init[j]);
      assert s[i] == init[i];
      assert forall j :: 0 <= j < i ==> s[j] == init[j];
    } else {
      assert Filter(s, p) == [s[|s| - 1]];
      forall j | 0 <= j < |s| - 1 ensures !p(s[j]) {
        assert s[j] == init[j] && init[j] in init;
      }
    }
  }

  function OwnedPlaylists(userId: Id): Playlist -> bool {
    (p: Playlist) => p.owner == userId
  }

  function Summaries(videos: seq<Video>, users: seq<User>, ps: seq<Playlist>): (r: seq<PlaylistSummary>)
    ensures |r| == |ps|
    ensures forall i :: 0 <= i < |ps| ==> r[i] == Summary(videos, users, ps[i])
  {
    if ps == [] then [] else [Summary(videos, users, ps[0])] + Summaries(videos, users, ps[1..])
  }

  /** `getUserPlaylists`: one summary per playlist the user owns, in
      collection order; a malformed id is refused with 400. */
  function UserPlaylists(playlists: seq<Playlist>, videos: seq<Video>, users: seq<User>, userId: string)
      : (r: Result<seq<PlaylistSummary>>)
    ensures r.Err? <==> !IsValidObjectId(userId)
    ensures r.Err? ==> r.error == ApiError(400, "Invalid userId")
    ensures r.Ok? ==> |r.value| == |Filter(playlists, OwnedPlaylists(userId))|
  {
    if !IsValidObjectId(userId) then Err(ApiError(400, "Invalid userId"))
    else Ok(Summaries(videos, users, Filter(playlists, OwnedPlaylists(userId))))
  }

  /** The summaries are those of the user's playlists: each summarises a
      playlist the user owns, and each such playlist is summarised. */
  lemma UserPlaylistsAreTheOwners(playlists: seq<Playlist>, videos: seq<Video>, users: seq<User>, userId: string)
    requires IsValidObjectId(userId)
    ensures var r := UserPlaylists(playlists, videos, users, userId).value;
            (forall s :: s in r ==> exists p :: p in playlists && p.owner == userId && s == Summary(videos, users, p)) &&
            (forall p :: p in playlists && p.owner == userId ==> Summary(videos, users, p) in r)
  {
    var mine := Filter(playlists, OwnedPlaylists(userId));
    var r := Summaries(videos, users, mine);
    forall s | s in r
      ensures exists p :: p in playlists && p.owner == userId && s == Summary(videos, users, p)
    {
      var i :| 0 <= i < |r| && r[i] == s;
      assert mine[i] in mine;
    }
    forall p | p in playlists && p.owner == userId
      ensures Summary(videos, users, p) in r
    {
      assert p in mine;
      var i :| 0 <= i < |mine| && mine[i] == p;
      assert r[i] == Summary(videos, users, p);
    }
  }

  // ---------------------------------------------------------------------
  // getPlaylistById
  // ---------------------------------------------------------------------

  datatype VideoOwner = VideoOwner(username: string, fullName: Option<string>)

  datatype PlaylistVideo = PlaylistVideo(
    id: Id,
    videoFileUrl: string,
    thumbnailUrl: string,
    title: string,
    description: string,
    duration: int,
    createdAt: int,
    views: int,
    owner: Option<VideoOwner>)

  datatype PlaylistDetail = PlaylistDetail(
    id: Id,
    name: string,
    description: string,
    totalVideos: nat,
    totalViews: int,
    videos: seq<PlaylistVideo>)

  function VideoOwnerOf(users: seq<User>, id: Id): Option<VideoOwner> {
    match FindKey(users, UserKey, id)
    case None => None
    case Some(u) => Some(VideoOwner(u.username, u.fullName))
  }

  function ShowVideo(users: seq<User>, v: Video): PlaylistVideo {
    PlaylistVideo(v.id, v.videoFile.url, v.thumbnail.url, v.title, v.description, v.duration,
                  v.createdAt, v.views, VideoOwnerOf(users, v.owner))
  }

  function ShowVideos(users: seq<User>, vs: seq<Video>): (r: seq<PlaylistVideo>)
    ensures |r| == |vs|
    ensures forall i :: 0 <= i < |vs| ==> r[i] == ShowVideo(users, vs[i])
  {
    if vs == [] then [] else [ShowVideo(users, vs[0])] + ShowVideos(users, vs[1..])
  }

  /** The playlist's published videos, in collection order. */
  function PublishedVideos(videos: seq<Video>, ids: seq<Id>): seq<Video> {
    Filter(Resolve(videos, ids), IsPublished())
  }

  /** `getPlaylistById`. The `$match` on `videos.isPublished` after the
      `$unwind` drops the playlist's own document when no listed video is
      published, and the `$group` then yields nothing: the answer is empty. */
  function PlaylistById(playlists: seq<Playlist>, videos: seq<Video>, users: seq<User>, id: string)
      : (r: Result<Option<PlaylistDetail>>)
    ensures !IsValidObjectId(id) ==> r == Err(ApiError(400, "PlaylistId doesn't exist"))
    ensures IsValidObjectId(id) && FindKey(playlists, PlaylistKey, id).None? ==> r == Err(ApiError(404, "Playlist not found"))
    ensures r.Ok? ==> FindKey(playlists, PlaylistKey, id).Some?
    ensures r.Ok? && r.value.Some? ==> r.value.value.id == id
  {
    if !IsValidObjectId(id) then Err(ApiError(400, "PlaylistId doesn't exist"))
    else
      match FindKey(playlists, PlaylistKey, id)
      case None => Err(ApiError(404, "Playlist not found"))
      case Some(p) =>
        var published := PublishedVideos(videos, p.videos);
        if published == [] then Ok(None)
        else Ok(Some(PlaylistDetail(p.id, p.name, p.description, |published|,
                                    SumOf(published, ByViews()), ShowVideos(users, published))))
  }

  /** `totalVideos` is the number of the playlist's published videos and
      `totalViews` the sum of their views. */
  lemma PlaylistDetailTotals(playlists: seq<Playlist>, videos: seq<Video>, users: seq<User>, id: string)
    requires PlaylistById(playlists, videos, users, id).Ok?
    requires PlaylistById(playlists, videos, users, id).value.Some?
    ensures var p := FindKey(playlists, PlaylistKey, id).value;
            var d := PlaylistById(playlists, videos, users, id).value.value;
            d.totalVideos == |set i | 0 <= i < |videos| && videos[i].id in p.videos && videos[i].isPublished| &&
            d.totalViews == SumOf(videos, ListedPublishedViews(p.videos)) &&
            |d.videos| == d.totalVideos
  {
    var p := FindKey(playlists, PlaylistKey, id).value;
    var both := Both(Listed(p.videos), IsPublished());
    FilterFilter(videos, Listed(p.videos), IsPublished(), both);
    FilterCount(videos, both);
    assert Positions(videos, both) == set i | 0 <= i < |videos| && videos[i].id in p.videos && videos[i].isPublished;
    SumOfFilter(videos, both, ByViews(), ListedPublishedViews(p.videos));
  }

  /** The detail shows exactly the playlist's published videos, and is
      absent exactly when the playlist lists none. */
  lemma PlaylistDetailVideos(playlists: seq<Playlist>, videos: seq<Video>, users: seq<User>, id: string)
    requires PlaylistById(playlists, videos, users, id).Ok?
    ensures var p := FindKey(playlists, PlaylistKey, id).value;
            var d := PlaylistById(playlists, videos, users, id).value;
            (d.None? <==> forall v :: v in videos && v.id in p.videos ==> !v.isPublished) &&
            (d.Some? ==> forall w :: w in d.value.videos ==>
                           exists v :: v in videos && v.id in p.videos && v.isPublished && w == ShowVideo(users, v)) &&
            (d.Some? ==> forall v :: v in videos && v.id in p.videos && v.isPublished ==> ShowVideo(users, v) in d.value.videos)
  {
    var p := FindKey(playlists, PlaylistKey, id).value;
    var published := PublishedVideos(videos, p.videos);
    var shown := ShowVideos(users, published);
    forall v | v in videos && v.id in p.videos && v.isPublished
      ensures v in published && ShowVideo(users, v) in shown
    {
      assert v in Resolve(videos, p.videos);
      var i :| 0 <= i < |published| && published[i] == v;
      assert shown[i] == ShowVideo(users, v);
    }
    forall w | w in shown
      ensures exists v :: v in videos && v.id in p.videos && v.isPublished && w == ShowVideo(users, v)
    {
      var i :| 0 <= i < |shown| && shown[i] == w;
      assert published[i] in published;
      assert published[i] in Resolve(videos, p.videos);
    }
    if published != [] {
      assert published[0] in published && published[0] in Resolve(videos, p.videos);
    }
  }

  // ---------------------------------------------------------------------
  // createPlaylist
  // ---------------------------------------------------------------------

  const NameAndDescriptionRequired := "name and description both are required"

  /** `createPlaylist`: both a name and a description are needed; the new
      playlist is empty and owned by the acting user. `id` is the value the
      database assigns. */
  method CreatePlaylist(store: Store, actor: Id, id: Id, name: Option<string>, description: Option<string>)
      returns (r: Result<Playlist>)
    modifies store`playlists
    ensures !Present(name) || !Present(description) ==>
              r == Err(ApiError(400, NameAndDescriptionRequired)) && store.playlists == old(store.playlists)
    ensures Present(name) && Present(description) ==>
              r == Ok(Playlist(id, name.value, description.value, actor, [])) &&
              store.playlists == old(store.playlists) + [r.value]
  {
    if !Present(name) || !Present(description) {
      return Err(ApiError(400, NameAndDescriptionRequired));
    }
    var p := Playlist(id, name.value, description.value, actor, []);
    store.playlists := store.playlists + [p];
    return Ok(p);
  }

  // ---------------------------------------------------------------------
  // addVideoToPlaylist and removeVideoFromPlaylist
  // ---------------------------------------------------------------------

  /** The checks of add and remove, in order: both ids well formed, the
      playlist found, the video found, the acting user the owner (refused
      with `code`). */
  function MembershipCheck(playlists: seq<Playlist>, videos: seq<Video>, actor: Id, playlistId: string,
                           videoId: string, code: int, forbidden: string): (r: Result<Playlist>)
    ensures r.Ok? ==> r.value in playlists && r.value.id == playlistId && r.value.owner == actor
    ensures r.Ok? ==> exists v :: v in videos && v.id == videoId
    ensures !IsValidObjectId(playlistId) || !IsValidObjectId(videoId) ==>
              r == Err(ApiError(400, "Invalid PlaylistId or videoId"))
    ensures IsValidObjectId(playlistId) && IsValidObjectId(videoId) && FindKey(playlists, PlaylistKey, playlistId).None? ==>
              r == Err(ApiError(404, "Playlist not found"))
    ensures IsValidObjectId(playlistId) && IsValidObjectId(videoId) && FindKey(playlists, PlaylistKey, playlistId).Some? &&
            FindKey(videos, VideoKey, videoId).None? ==>
              r == Err(ApiError(404, "video not found"))
  {
    if !IsValidObjectId(playlistId) || !IsValidObjectId(videoId) then Err(ApiError(400, "Invalid PlaylistId or videoId"))
    else
      match FindKey(playlists, PlaylistKey, playlistId)
      case None => Err(ApiError(404, "Playlist not found"))
      case Some(p) =>
        match FindKey(videos, VideoKey, videoId)
        case None => Err(ApiError(404, "video not found"))
        case Some(_) => if p.owner != actor then Err(ApiError(code, forbidden)) else Ok(p)
  }

  /** An existing playlist and video, but an acting user who is not the
      playlist's owner: refused with the handler's code. */
  lemma NonOwnerCannotChangeMembership(playlists: seq<Playlist>, videos: seq<Video>, actor: Id, playlistId: string,
                                       videoId: string, code: int, forbidden: string)
    requires IsValidObjectId(playlistId) && IsValidObjectId(videoId)
    requires FindKey(playlists, PlaylistKey, playlistId).Some? && FindKey(videos, VideoKey, videoId).Some?
    requires FindKey(playlists, PlaylistKey, playlistId).value.owner != actor
    ensures MembershipCheck(playlists, videos, actor, playlistId, videoId, code, forbidden) == Err(ApiError(code, forbidden))
  {
  }

  const AddForbidden := "only owner can add video to thier playlist"
  const RemoveForbidden := "only owner can remove video from thier playlist"

  function AddVideo(videoId: Id): Playlist -> Playlist {
    (p: Playlist) => p.(videos := AddToSet(p.videos, videoId))
  }

  function RemoveVideo(videoId: Id): Playlist -> Playlist {
    (p: Playlist) => p.(videos := Pull(p.videos, videoId))
  }

  /** `addVideoToPlaylist`: the answer is the playlist after `$addToSet`. */
  method AddVideoToPlaylist(store: Store, actor: Id, playlistId: string, videoId: string) returns (r: Result<Playlist>)
    modifies store`playlists
    ensures var c := MembershipCheck(old(store.playlists), store.videos, actor, playlistId, videoId, 400, AddForbidden);
            (c.Err? ==> r == Err(c.error) && store.playlists == old(store.playlists)) &&
            (c.Ok? ==> (r == Ok(AddVideo(videoId)(c.value)) &&
                        store.playlists == Update(old(store.playlists), PlaylistKey, playlistId, AddVideo(videoId))))
  {
    var c := MembershipCheck(store.playlists, store.videos, actor, playlistId, videoId, 400, AddForbidden);
    if c.Err? {
      return Err(c.error);
    }
    store.playlists := Update(store.playlists, PlaylistKey, playlistId, AddVideo(videoId));
    return Ok(AddVideo(videoId)(c.value));
  }

  /** Set semantics: after the add the video is listed exactly once (on a
      list without duplicates, which the add keeps so), and adding again
      leaves the collection as the first add did. */
  lemma AddIsSetInsertion(playlists: seq<Playlist>, p: Playlist, videoId: Id)
    requires NoDuplicates(p.videos)
    ensures var q := AddVideo(videoId)(p);
            NoDuplicates(q.videos) && Occurrences(q.videos, videoId) == 1 &&
            forall x :: x in q.videos <==> x in p.videos || x == videoId
    ensures var once := Update(playlists, PlaylistKey, p.id, AddVideo(videoId));
            Update(once, PlaylistKey, p.id, AddVideo(videoId)) == once
  {
    AddToSetOnce(p.videos, videoId);
    forall q: Playlist ensures AddVideo(videoId)(q) == AddVideo(videoId)(AddVideo(videoId)(q)) {
      AddToSetIdempotent(q.videos, videoId);
    }
    UpdateCompose(playlists, PlaylistKey, p.id, AddVideo(videoId), AddVideo(videoId), AddVideo(videoId));
  }

  /** `removeVideoFromPlaylist`: the answer is the playlist after `$pull`. */
  method RemoveVideoFromPlaylist(store: Store, actor: Id, playlistId: string, videoId: string) returns (r: Result<Playlist>)
    modifies store`playlists
    ensures var c := MembershipCheck(old(store.playlists), store.videos, actor, playlistId, videoId, 404, RemoveForbidden);
            (c.Err? ==> r == Err(c.error) && store.playlists == old(store.playlists)) &&
            (c.Ok? ==> (r == Ok(RemoveVideo(videoId)(c.value)) &&
                        store.playlists == Update(old(store.playlists), PlaylistKey, playlistId, RemoveVideo(videoId))))
  {
    var c := MembershipCheck(store.playlists, store.videos, actor, playlistId, videoId, 404, RemoveForbidden);
    if c.Err? {
      return Err(c.error);
    }
    store.playlists := Update(store.playlists, PlaylistKey, playlistId, RemoveVideo(videoId));
    return Ok(RemoveVideo(videoId)(c.value));
  }

  /** The remove drops every occurrence of the video and keeps the other
      entries in their order, with their multiplicities; removing again
      changes nothing. */
  lemma RemoveIsPull(playlists: seq<Playlist>, p: Playlist, videoId: Id)
    ensures var q := RemoveVideo(videoId)(p);
            q.videos == Filter(p.videos, Other(videoId)) &&
            multiset(q.videos) == multiset(p.videos)[videoId := 0]
    ensures var once := Update(playlists, PlaylistKey, p.id, RemoveVideo(videoId));
            Update(once, PlaylistKey, p.id, RemoveVideo(videoId)) == once
  {
    PullIsFilter(p.videos, videoId);
    PullCounts(p.videos, videoId);
    forall q: Playlist ensures RemoveVideo(videoId)(q) == RemoveVideo(videoId)(RemoveVideo(videoId)(q)) {
      PullIdempotent(q.videos, videoId);
    }
    UpdateCompose(playlists, PlaylistKey, p.id, RemoveVideo(videoId), RemoveVideo(videoId), RemoveVideo(videoId));
  }

  // ---------------------------------------------------------------------
  // deletePlaylist and updatePlaylist
  // ---------------------------------------------------------------------

  /** A well-formed id, an existing playlist, and the acting user as its owner. */
  function OwnedPlaylist(playlists: seq<Playlist>, actor: Id, id: string, forbidden: string): (r: Result<Playlist>)
    ensures r.Ok? ==> r.value in playlists && r.value.id == id && r.value.owner == actor
    ensures !IsValidObjectId(id) ==> r == Err(ApiError(400, "Invalid PlaylistId"))
    ensures IsValidObjectId(id) && FindKey(playlists, PlaylistKey, id).None? ==> r == Err(ApiError(404, "Playlist not found"))
    ensures IsValidObjectId(id) && FindKey(playlists, PlaylistKey, id).Some? && FindKey(playlists, PlaylistKey, id).value.owner != actor ==>
              r == Err(ApiError(400, forbidden))
  {
    if !IsValidObjectId(id) then Err(ApiError(400, "Invalid PlaylistId"))
    else
      match FindKey(playlists, PlaylistKey, id)
      case None => Err(ApiError(404, "Playlist not found"))
      case Some(p) => if p.owner != actor then Err(ApiError(400, forbidden)) else Ok(p)
  }

  function NotPlaylist(id: Id): Playlist -> bool {
    (p: Playlist) => p.id != id
  }

  /** `deletePlaylist`. */
  method DeletePlaylist(store: Store, actor: Id, id: string) returns (r: Result<()>)
    modifies store`playlists
    ensures var c := OwnedPlaylist(old(store.playlists), actor, id, "only owner can delete the playlist");
            (c.Err? ==> r == Err(c.error) && store.playlists == old(store.playlists)) &&
            (c.Ok? ==> r == Ok(()) && store.playlists == Filter(old(store.playlists), NotPlaylist(id)))
  {
    var c := OwnedPlaylist(store.playlists, actor, id, "only owner can delete the playlist");
    if c.Err? {
      return Err(c.error);
    }
    store.playlists := Filter(store.playlists, NotPlaylist(id));
    return Ok(());
  }

  /** After the delete no playlist has the id and every other one is kept. */
  lemma DeleteRemovesExactly(playlists: seq<Playlist>, id: Id)
    ensures forall p :: p in Filter(playlists, NotPlaylist(id)) <==> p in playlists && p.id != id
    ensures FindKey(Filter(playlists, NotPlaylist(id)), PlaylistKey, id).None?
  {
  }

  function Rename(name: string, description: string): Playlist -> Playlist {
    (p: Playlist) => p.(name := name, description := description)
  }

  /** The checks of `updatePlaylist`, in order: both fields first, then the id. */
  function UpdatePlaylistCheck(playlists: seq<Playlist>, actor: Id, id: string, name: Option<string>,
                               description: Option<string>): (r: Result<Playlist>)
    ensures !Present(name) || !Present(description) ==> r == Err(ApiError(400, NameAndDescriptionRequired))
    ensures Present(name) && Present(description) ==> r == OwnedPlaylist(playlists, actor, id, "Admin can only edit this playlist")
  {
    if !Present(name) || !Present(description) then Err(ApiError(400, NameAndDescriptionRequired))
    else OwnedPlaylist(playlists, actor, id, "Admin can only edit this playlist")
  }

  /** `updatePlaylist`: the answer is the renamed playlist. */
  method UpdatePlaylist(store: Store, actor: Id, id: string, name: Option<string>, description: Option<string>)
      returns (r: Result<Playlist>)
    modifies store`playlists
    ensures var c := UpdatePlaylistCheck(old(store.playlists), actor, id, name, description);
            (c.Err? ==> r == Err(c.error) && store.playlists == old(store.playlists)) &&
            (c.Ok? ==> (r == Ok(Rename(name.value, description.value)(c.value)) &&
                        store.playlists == Update(old(store.playlists), PlaylistKey, id, Rename(name.value, description.value))))
  {
    var c := UpdatePlaylistCheck(store.playlists, actor, id, name, description);
    if c.Err? {
      return Err(c.error);
    }
    store.playlists := Update(store.playlists, PlaylistKey, id, Rename(name.value, description.value));
    return Ok(Rename(name.value, description.value)(c.value));
  }

  /** A rename changes only the name and the description of that one
      playlist: its owner and its videos stay, and so does every other playlist. */
  lemma RenameChangesOnlyNameAndDescription(playlists: seq<Playlist>, id: Id, name: string, description: string)
    ensures var r := Update(playlists, PlaylistKey, id, Rename(name, description));
            |r| == |playlists| &&
            forall i :: 0 <= i < |r| ==>
              r[i].id == playlists[i].id && r[i].owner == playlists[i].owner && r[i].videos == playlists[i].videos &&
              (playlists[i].id == id ==> r[i].name == name && r[i].description == description) &&
              (playlists[i].id != id ==> r[i] == playlists[i])
  {
  }
}
