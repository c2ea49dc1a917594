/** The records of the seven collections and the in-memory document store
    that holds them. Field names follow the controllers, which read `owner`
    on playlists and comments and `subscriber` on subscriptions. */
module Models {
  import opened Common
  import opened Collections

  /** A blob-store reference as the upload service returns it. */
  datatype Blob = Blob(url: string, publicId: string)

  /** An account. `email` and `fullName` are optional in the record, though
      registration stores both; `password` holds whatever the hashing hook stores;
      `refreshToken` is the one refresh credential the account keeps. */
  datatype User = User(
    id: Id,
    username: string,
    email: Option<string>,
    fullName: Option<string>,
    avatar: string,
    coverImage: string,
    password: Option<string>,
    refreshToken: Option<Token>,
    watchHistory: seq<Id>)

  datatype Video = Video(
    id: Id,
    videoFile: Blob,
    thumbnail: Blob,
    title: string,
    description: string,
    duration: int,
    views: int,
    isPublished: bool,
    owner: Id,
    createdAt: int)

  datatype Comment = Comment(id: Id, content: string, owner: Id, video: Id, createdAt: int)

  datatype Tweet = Tweet(id: Id, content: string, owner: Id, createdAt: int)

  datatype Playlist = Playlist(id: Id, name: string, description: string, owner: Id, videos: seq<Id>)

  /** A like names exactly one liked record. */
  datatype Target = OnVideo(video: Id) | OnComment(comment: Id) | OnTweet(tweet: Id)

  datatype Like = Like(target: Target, likedBy: Id)

  datatype Subscription = Subscription(subscriber: Id, channel: Id)

  function UserKey(u: User): Id { u.id }
  function VideoKey(v: Video): Id { v.id }
  function CommentKey(c: Comment): Id { c.id }
  function TweetKey(t: Tweet): Id { t.id }
  function PlaylistKey(p: Playlist): Id { p.id }

  /** The collections, each in natural (insertion) order. */
  class Store {
    var users: seq<User>
    var videos: seq<Video>
    var comments: seq<Comment>
    var tweets: seq<Tweet>
    var playlists: seq<Playlist>
    var likes: seq<Like>
    var subscriptions: seq<Subscription>

    constructor ()
      ensures users == [] && videos == [] && comments == [] && tweets == []
      ensures playlists == [] && likes == [] && subscriptions == []
    {
      users, videos, comments, tweets := [], [], [], [];
      playlists, likes, subscriptions := [], [], [];
    }
  }

  /** `Model.findById(id)`: a malformed id makes Mongoose throw a CastError;
      a well-formed one yields the record or null. */
  function FindById<T(!new)>(s: seq<T>, key: T -> Id, id: string): (r: Result<Option<T>>)
    ensures r.Err? <==> !IsValidObjectId(id)
    ensures r.Err? ==> r.error.MongooseError?
    ensures r.Ok? && r.value.Some? ==> r.value.value in s && key(r.value.value) == id
    ensures r.Ok? && r.value.None? ==> forall x :: x in s ==> key(x) != id
  {
    if !IsValidObjectId(id) then Err(MongooseError("Cast to ObjectId failed"))
    else Ok(FindKey(s, key, id))
  }

  /** A user as every handler returns one: `select("-password -refreshToken")`.
      The type has no place for either secret. */
  datatype PublicUser = PublicUser(
    id: Id,
    username: string,
    email: Option<string>,
    fullName: Option<string>,
    avatar: string,
    coverImage: string,
    watchHistory: seq<Id>)

  function Public(u: User): (r: PublicUser)
    ensures r.id == u.id && r.username == u.username && r.email == u.email
    ensures r.fullName == u.fullName && r.avatar == u.avatar
    ensures r.coverImage == u.coverImage && r.watchHistory == u.watchHistory
  {
    PublicUser(u.id, u.username, u.email, u.fullName, u.avatar, u.coverImage, u.watchHistory)
  }

  /** Two users that differ only in their secrets look the same to every client. */
  lemma PublicIgnoresSecrets(u: User, password: Option<string>, token: Option<Token>)
    ensures Public(u.(password := password, refreshToken := token)) == Public(u)
  {
  }

  /** `User.findById(id).select("-password -refreshToken")` with a well-formed
      id: the user seen without secrets, or null. */
  function LookupPublic(users: seq<User>, id: Id): (r: Option<PublicUser>)
    ensures r.Some? <==> exists u :: u in users && u.id == id
    ensures r.Some? ==> exists u :: u in users && u.id == id && r.value == Public(u)
  {
    match FindKey(users, UserKey, id)
    case None => assert forall u :: u in users ==> UserKey(u) != id; None
    case Some(u) => Some(Public(u))
  }
}
