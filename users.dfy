/** The user controller: registration, login, logout, token refresh, password
    and account-detail changes, and the two read-only views (a channel
    profile and the watch history). Blob uploads are not modelled: each
    upload's outcome (the stored blob, or null when the upload failed) is a
    parameter. Password hashing and comparison are not modelled either: the
    comparison is the parameter `passwordMatches`. */
module UserController {
  import opened Common
  import opened Collections
  import opened Models
  import opened Joins
  import opened Tokens
  import opened AuthMiddleware

  /** Every id in the store is an ObjectId the database generated. */
  predicate WellFormedIds(users: seq<User>) {
    forall u :: u in users ==> IsValidObjectId(u.id)
  }

  // ---------------------------------------------------------------------
  // registerUser
  // ---------------------------------------------------------------------

  datatype RegisterForm = RegisterForm(
    fullName: Option<string>,
    email: Option<string>,
    username: Option<string>,
    password: Option<string>)

  /** `field && field.trim() === ""`: supplied, non-empty and all white space. */
  predicate Blank(field: Option<string>) {
    Present(field) && Trim(field.value) == ""
  }

  /** The validation `.some(...)` over fullName, username, email and password. */
  predicate AnyBlank(f: RegisterForm) {
    Blank(f.fullName) || Blank(f.username) || Blank(f.email) || Blank(f.password)
  }

  /** `{ username }` or `{ email }` of the `$or` lookup; an absent value matches no one. */
  function SameUsernameOrEmail(username: Option<string>, email: Option<string>): User -> bool {
    (u: User) => (username.Some? && u.username == username.value) || (email.Some? && u.email == email)
  }

  const RegistrationFailed := "Something went wrong while registering a user and image deleted"

  /** The schema's `trim: true` on username, email and fullName: the value
      is stored trimmed, and an absent value stays absent. */
  function Trimmed(o: Option<string>): (r: Option<string>)
    ensures r.Some? <==> o.Some?
    ensures o.Some? ==> r.value == Trim(o.value)
  {
    match o
    case None => None
    case Some(s) => Some(Trim(s))
  }

  /** The record `User.create` stores. The username is lowercased by the
      handler, and the schema then trims it, the email and the full name.
      The blob of a failed avatar upload is null and reading its url throws;
      a missing cover url becomes "". */
  function NewUser(id: Id, f: RegisterForm, avatar: Blob, cover: Option<Blob>): User
    requires f.username.Some?
  {
    User(id, Trim(Lower(f.username.value)), Trimmed(f.email), Trimmed(f.fullName), avatar.url,
         if cover.Some? && cover.value.url != "" then cover.value.url else "",
         f.password, None, [])
  }

  /** `User.create` refuses a record that lacks a required field (fullName,
      email, avatar, password, username) or repeats a unique one. */
  predicate Creatable(users: seq<User>, u: User) {
    u.fullName.Some? && u.fullName.value != "" && u.email.Some? && u.email.value != "" &&
    u.password.Some? && u.password.value != "" && u.username != "" && u.avatar != "" &&
    forall v :: v in users ==> v.username != u.username && v.email != u.email
  }

  /** What registration stores, or the error it throws. */
  function Registration(users: seq<User>, id: Id, f: RegisterForm,
                        avatarPath: Option<string>, coverPath: Option<string>,
                        avatarUpload: Option<Blob>, coverUpload: Option<Blob>): (r: Result<User>)
    ensures r.Err? ==> r.error.ApiError? && (r.error.statusCode == 400 || r.error.statusCode == 500)
    ensures r.Ok? ==> Creatable(users, r.value) && r.value.id == id
  {
    if AnyBlank(f) then Err(ApiError(400, "All fields are required"))
    else Admission(users, id, f, avatarPath, coverPath, avatarUpload, coverUpload)
  }

  /** Registration past the whitespace check. */
  function Admission(users: seq<User>, id: Id, f: RegisterForm,
                     avatarPath: Option<string>, coverPath: Option<string>,
                     avatarUpload: Option<Blob>, coverUpload: Option<Blob>): (r: Result<User>)
    ensures r.Err? ==> r.error.ApiError? && (r.error.statusCode == 400 || r.error.statusCode == 500)
    ensures r.Err? ==> r.error.message != "All fields are required"
    ensures r.Ok? ==> Creatable(users, r.value) && r.value.id == id
  {
    if First(users, SameUsernameOrEmail(f.username, f.email)).Some? then Err(ApiError(400, "User already exists"))
    else if !Present(avatarPath) then Err(ApiError(400, "Avatar not found"))
    else if !Present(coverPath) then Err(ApiError(400, "CoverImage not found"))
    else if avatarUpload.None? || f.username.None? then Err(ApiError(500, RegistrationFailed))
    else
      var u := NewUser(id, f, avatarUpload.value, coverUpload);
      if Creatable(users, u) then Ok(u) else Err(ApiError(500, RegistrationFailed))
  }

  /** The whitespace check fires exactly when some supplied field is blank;
      an absent field never trips it. */
  lemma BlankFieldIff(users: seq<User>, id: Id, f: RegisterForm, ap: Option<string>, cp: Option<string>,
                      au: Option<Blob>, cu: Option<Blob>)
    ensures (Registration(users, id, f, ap, cp, au, cu) == Err(ApiError(400, "All fields are required")))
              <==> (exists k :: 0 <= k < 4 && Blank([f.fullName, f.username, f.email, f.password][k]))
  {
    var fields := [f.fullName, f.username, f.email, f.password];
    if AnyBlank(f) {
      if Blank(f.fullName) { assert Blank(fields[0]); }
      else if Blank(f.username) { assert Blank(fields[1]); }
      else if Blank(f.email) { assert Blank(fields[2]); }
      else { assert Blank(fields[3]); }
    } else {
      assert forall k :: 0 <= k < 4 ==> !Blank(fields[k]);
    }
  }

  /** A field made only of white space is blank, whatever white space it uses. */
  lemma WhitespaceOnlyIsBlank(s: string)
    requires s != [] && AllSpace(s)
    ensures Blank(Some(s))
  {
    TrimEmptyIffAllSpace(s);
  }

  /** Past the whitespace check, a user with the same username or the same
      email makes registration fail with 400. */
  lemma ExistingUserIff(users: seq<User>, id: Id, f: RegisterForm, ap: Option<string>, cp: Option<string>,
                        au: Option<Blob>, cu: Option<Blob>)
    requires !AnyBlank(f)
    ensures (Registration(users, id, f, ap, cp, au, cu) == Err(ApiError(400, "User already exists")))
              <==> (exists u :: u in users && ((f.username.Some? && u.username == f.username.value) ||
                                              (f.email.Some? && u.email == f.email)))
  {
    var p := SameUsernameOrEmail(f.username, f.email);
    if First(users, p).Some? {
      var u := First(users, p).value;
      assert u in users && p(u);
    } else {
      assert forall u :: u in users ==> !p(u);
    }
  }

  /** A created user has the lowercased username, the email and full name as
      given, all three trimmed, the avatar url, the cover url or "" when the
      upload gave none, no refresh token and no history. */
  lemma CreatedUserFields(users: seq<User>, id: Id, f: RegisterForm, ap: Option<string>, cp: Option<string>,
                          au: Option<Blob>, cu: Option<Blob>)
    requires Registration(users, id, f, ap, cp, au, cu).Ok?
    ensures var u := Registration(users, id, f, ap, cp, au, cu).value;
            f.username.Some? && au.Some? && Present(ap) && Present(cp) &&
            u.username == Trim(Lower(f.username.value)) && u.email == Trimmed(f.email) &&
            u.fullName == Trimmed(f.fullName) && u.avatar == au.value.url &&
            ((cu.None? || cu.value.url == "") ==> u.coverImage == "") &&
            (cu.Some? && cu.value.url != "" ==> u.coverImage == cu.value.url) &&
            u.refreshToken.None? && u.watchHistory == [] && u.password == f.password
  {
    assert !AnyBlank(f);
    assert Registration(users, id, f, ap, cp, au, cu) == Admission(users, id, f, ap, cp, au, cu);
    assert f.username.Some? && au.Some?;
    assert Admission(users, id, f, ap, cp, au, cu) == Ok(NewUser(id, f, au.value, cu));
  }

  /** `registerUser`: on success the new user is appended and returned
      without its secrets (201); on any failure nothing is stored. */
  method RegisterUser(store: Store, id: Id, f: RegisterForm,
                      avatarPath: Option<string>, coverPath: Option<string>,
                      avatarUpload: Option<Blob>, coverUpload: Option<Blob>)
      returns (r: Result<PublicUser>)
    modifies store`users
    ensures var reg := Registration(old(store.users), id, f, avatarPath, coverPath, avatarUpload, coverUpload);
            (reg.Err? ==> r == Err(reg.error) && store.users == old(store.users)) &&
            (reg.Ok? ==> r == Ok(Public(reg.value)) && store.users == old(store.users) + [reg.value])
  {
    var reg := Registration(store.users, id, f, avatarPath, coverPath, avatarUpload, coverUpload);
    if reg.Err? {
      return Err(reg.error);
    }
    store.users := store.users + [reg.value];
    return Ok(Public(reg.value));
  }

  // ---------------------------------------------------------------------
  // loggedInUser
  // ---------------------------------------------------------------------

  /** `User.findOne({ $or: [{ email }, { username }] })`: the first user in
      collection order with that email or that username. */
  function LoginLookup(users: seq<User>, email: Option<string>, username: Option<string>): (r: Option<User>)
    ensures r.None? <==> forall u :: u in users ==>
              !((email.Some? && u.email == email) || (username.Some? && u.username == username.value))
    ensures r.Some? ==> (r.value in users &&
              ((email.Some? && r.value.email == email) || (username.Some? && r.value.username == username.value)))
  {
    var r := First(users, SameUsernameOrEmail(username, email));
    assert r.Some? ==> SameUsernameOrEmail(username, email)(r.value);
    r
  }

  datatype Session = Session(user: PublicUser, accessToken: Token, refreshToken: Token)

  /** `loggedInUser`. A request with neither email nor username only builds
      an error and goes on to the lookup, which then finds no one. The user
      returned is the one read back after the token was stored. */
  method LoggedInUser(store: Store, email: Option<string>, username: Option<string>, password: Option<string>,
                      passwordMatches: (Option<string>, Option<string>) -> bool, minted: Option<TokenPair>)
      returns (r: Result<Session>)
    requires WellFormedIds(store.users)
    modifies store`users
    ensures var found := LoginLookup(old(store.users), email, username);
            found.None? ==> r == Err(ApiError(404, "User doesn't exists"))
    ensures var found := LoginLookup(old(store.users), email, username);
            found.Some? && !passwordMatches(password, found.value.password) ==>
              r == Err(ApiError(404, "Password is incorrect"))
    ensures var found := LoginLookup(old(store.users), email, username);
            found.Some? && passwordMatches(password, found.value.password) && minted.None? ==>
              r == Err(ApiError(500, "Error generating access/refresh token"))
    ensures var found := LoginLookup(old(store.users), email, username);
            found.Some? && passwordMatches(password, found.value.password) && minted.Some? ==>
              r.Ok? && r.value.accessToken == minted.value.accessToken &&
              r.value.refreshToken == minted.value.refreshToken &&
              store.users == WithRefreshToken(old(store.users), found.value.id, Some(minted.value.refreshToken)) &&
              LookupPublic(store.users, found.value.id) == Some(r.value.user)
    ensures r.Ok? ==> exists u :: u in store.users && u.refreshToken == Some(r.value.refreshToken) &&
                                 Public(u) == r.value.user
    ensures r.Err? ==> store.users == old(store.users)
  {
    var found := LoginLookup(store.users, email, username);
    if found.None? {
      return Err(ApiError(404, "User doesn't exists"));
    }
    var user := found.value;
    if !passwordMatches(password, user.password) {
      return Err(ApiError(404, "Password is incorrect"));
    }
    var issued := GenerateAccessAndRefreshToken(store, user.id, minted);
    if issued.Err? {
      return Err(issued.error);
    }
    StoredRefreshToken(old(store.users), user.id, Some(issued.value.refreshToken));
    var stored := FindKey(store.users, UserKey, user.id).value;
    assert stored in store.users && stored.refreshToken == Some(issued.value.refreshToken);
    return Ok(Session(Public(stored), issued.value.accessToken, issued.value.refreshToken));
  }

  // ---------------------------------------------------------------------
  // loggedOutUser
  // ---------------------------------------------------------------------

  /** `loggedOutUser`. The update `$set: { refreshToken: undefined }` is
      empty once Mongoose strips the undefined key, so the stored refresh
      token stays as it was. The response is then built with `clearCookies`,
      which Express does not have, so every request ends in a TypeError (500)
      and the store is left unchanged. */
  method LoggedOutUser(store: Store, actor: Id) returns (r: Result<()>)
    ensures r == Err(ScriptError("res.status(...).clearCookies is not a function"))
  {
    return Err(ScriptError("res.status(...).clearCookies is not a function"));
  }

  // ---------------------------------------------------------------------
  // refreshAccessToken
  // ---------------------------------------------------------------------

  /** The message jsonwebtoken gives a token it refuses. */
  const JwtRefused := "invalid token"

  /** `req.cookies.refreshToken || req.body.refreshToken` */
  function IncomingRefreshToken(cookie: Option<Token>, body: Option<Token>): Option<Token> {
    if Present(cookie) then cookie else body
  }

  /** The user a refresh is for, or the error: 401 without a token, and 404,
      with the inner error's message, for every failure inside the try. The
      stored refresh token is never read. */
  function RefreshTarget(users: seq<User>, refreshKeys: map<Token, Claims>, cookie: Option<Token>, body: Option<Token>)
      : (r: Result<Id>)
    ensures r.Err? ==> r.error.ApiError?
    ensures r.Err? && r.error.statusCode == 401 <==> !Present(IncomingRefreshToken(cookie, body))
    ensures r.Err? ==> r.error.statusCode == 401 || r.error.statusCode == 404
    ensures r.Ok? ==> exists u :: u in users && u.id == r.value
  {
    var incoming := IncomingRefreshToken(cookie, body);
    if !Present(incoming) then Err(ApiError(401, "Refresh token is required"))
    else
      match Verify(refreshKeys, incoming)
      case None => Err(ApiError(404, JwtRefused))
      case Some(claims) =>
        match FindById(users, UserKey, claims.id)
        case Err(e) => Err(ApiError(404, e.message))
        case Ok(None) => Err(ApiError(404, "Session expired"))
        case Ok(Some(u)) => Ok(u.id)
  }

  /** The gap: a refresh is decided without the stored refresh token, so
      overwriting or clearing it (a later login, a logout) does not revoke
      an earlier refresh token that still verifies. */
  lemma RefreshIgnoresStoredToken(users: seq<User>, refreshKeys: map<Token, Claims>, cookie: Option<Token>,
                                  body: Option<Token>, id: Id, t: Option<Token>)
    ensures RefreshTarget(WithRefreshToken(users, id, t), refreshKeys, cookie, body)
              == RefreshTarget(users, refreshKeys, cookie, body)
  {
    var incoming := IncomingRefreshToken(cookie, body);
    var claims := Verify(refreshKeys, incoming);
    if Present(incoming) && claims.Some? {
      FindAfterUpdate(users, UserKey, id, SetRefreshToken(t), claims.value.id);
    }
  }

  /** `refreshAccessToken`: on success a new pair is issued and stored; a
      failure while issuing is reported as 404 with the issuer's message. */
  method RefreshAccessToken(store: Store, refreshKeys: map<Token, Claims>, cookie: Option<Token>,
                            body: Option<Token>, minted: Option<TokenPair>)
      returns (r: Result<TokenPair>)
    requires WellFormedIds(store.users)
    modifies store`users
    ensures var target := RefreshTarget(old(store.users), refreshKeys, cookie, body);
            (target.Err? ==> r == Err(target.error)) &&
            (target.Ok? && minted.None? ==> r == Err(ApiError(404, "Error generating access/refresh token"))) &&
            (target.Ok? && minted.Some? ==>
               r == Ok(minted.value) &&
               store.users == WithRefreshToken(old(store.users), target.value, Some(minted.value.refreshToken)))
    ensures r.Err? ==> store.users == old(store.users)
    ensures r.Err? ==> r.error.ApiError? && (r.error.statusCode == 401 || r.error.statusCode == 404)
    ensures r.Err? ==> (r.error.statusCode == 401 <==> !Present(IncomingRefreshToken(cookie, body)))
  {
    var target := RefreshTarget(store.users, refreshKeys, cookie, body);
    if target.Err? {
      return Err(target.error);
    }
    var issued := GenerateAccessAndRefreshToken(store, target.value, minted);
    if issued.Err? {
      return Err(ApiError(404, issued.error.message));
    }
    return Ok(issued.value);
  }

  // ---------------------------------------------------------------------
  // changeCurrentPassword
  // ---------------------------------------------------------------------

  function SetPassword(p: Option<string>): User -> User {
    (u: User) => u.(password := p)
  }

  /** A password change touches only the password: the session and every
      public field stay as they were. */
  lemma {:induction false} PasswordChangeKeepsTheRest(users: seq<User>, id: Id, p: Option<string>)
    ensures var r := Update(users, UserKey, id, SetPassword(p));
            |r| == |users| &&
            forall i :: 0 <= i < |users| ==>
              Public(r[i]) == Public(users[i]) && r[i].refreshToken == users[i].refreshToken &&
              (users[i].id == id ==> r[i].password == p)
  {
    var r := Update(users, UserKey, id, SetPassword(p));
    forall i | 0 <= i < |users|
      ensures Public(r[i]) == Public(users[i]) && r[i].refreshToken == users[i].refreshToken
    {
      if users[i].id == id {
        PublicIgnoresSecrets(users[i], p, users[i].refreshToken);
      }
    }
  }

  /** `changeCurrentPassword`. The current-password check is not awaited and
      always passes, so the new password is stored whatever was presented. */
  method ChangeCurrentPassword(store: Store, actor: Id, currentPassword: Option<string>, newPassword: Option<string>)
      returns (r: Result<()>)
    modifies store`users
    ensures var found := FindById(old(store.users), UserKey, actor);
            (found.Err? ==> r == Err(found.error)) &&
            (found == Ok(None) ==> r.Err? && r.error.ScriptError?) &&
            (found.Ok? && found.value.Some? ==> (r == Ok(()) &&
               store.users == Update(old(store.users), UserKey, actor, SetPassword(newPassword))))
    ensures r.Err? ==> store.users == old(store.users)
  {
    var found := FindById(store.users, UserKey, actor);
    if found.Err? {
      return Err(found.error);
    }
    if found.value.None? {
      return Err(ScriptError("Cannot read properties of null (reading 'isPasswordCorrect')"));
    }
    store.users := Update(store.users, UserKey, actor, SetPassword(newPassword));
    return Ok(());
  }

  // ---------------------------------------------------------------------
  // updateAccountDetails
  // ---------------------------------------------------------------------

  /** A value given in the body replaces the stored one, trimmed by the
      schema; a value left out is stripped from the update (Mongoose 6 and
      later drop undefined keys) and the stored one stays. */
  function GivenOrKept(given: Option<string>, stored: Option<string>): Option<string> {
    if given.Some? then Trimmed(given) else stored
  }

  /** `$set: { fullName, email }`. */
  function SetDetails(fullName: Option<string>, email: Option<string>): User -> User {
    (u: User) => u.(fullName := GivenOrKept(fullName, u.fullName), email := GivenOrKept(email, u.email))
  }

  /** A user other than `actor` who already has the email given in the update. */
  function HoldsEmail(actor: Id, email: Option<string>): User -> bool {
    (u: User) => email.Some? && u.id != actor && u.email == email
  }

  /** After the update the acting user has the given name and email, trimmed;
      a value not given is kept; nothing else about them has changed. */
  lemma DetailsUpdate(users: seq<User>, actor: Id, fullName: Option<string>, email: Option<string>)
    requires FindKey(users, UserKey, actor).Some?
    ensures var before := FindKey(users, UserKey, actor).value;
            var after := FindKey(Update(users, UserKey, actor, SetDetails(fullName, email)), UserKey, actor);
            after.Some? && after.value == before.(fullName := after.value.fullName, email := after.value.email) &&
            (fullName.Some? ==> after.value.fullName == Some(Trim(fullName.value))) &&
            (fullName.None? ==> after.value.fullName == before.fullName) &&
            (email.Some? ==> after.value.email == Some(Trim(email.value))) &&
            (email.None? ==> after.value.email == before.email)
  {
    FindAfterUpdate(users, UserKey, actor, SetDetails(fullName, email), actor);
  }

  /** `updateAccountDetails`: 400 when neither a name nor an email is given.
      Otherwise the values given are written, trimmed, and the updated user
      (or null) is returned; but an email another user already holds breaks
      the unique index, and the duplicate-key error (not a Mongoose error)
      writes nothing. */
  method UpdateAccountDetails(store: Store, actor: Id, fullName: Option<string>, email: Option<string>)
      returns (r: Result<Option<PublicUser>>)
    modifies store`users
    ensures !Present(email) && !Present(fullName) ==>
              r == Err(ApiError(400, "Name or email not valid")) && store.users == old(store.users)
    ensures (Present(email) || Present(fullName)) ==>
              var found := FindById(old(store.users), UserKey, actor);
              (found.Err? ==> r == Err(found.error) && store.users == old(store.users)) &&
              var taken := found.Ok? && found.value.Some? &&
                           First(old(store.users), HoldsEmail(actor, Trimmed(email))).Some?;
              (taken ==> r.Err? && r.error.ScriptError? && store.users == old(store.users)) &&
              (found.Ok? && !taken ==>
                 store.users == Update(old(store.users), UserKey, actor, SetDetails(fullName, email)) &&
                 r == Ok(LookupPublic(store.users, actor)))
  {
    if !Present(email) && !Present(fullName) {
      return Err(ApiError(400, "Name or email not valid"));
    }
    var found := FindById(store.users, UserKey, actor);
    if found.Err? {
      return Err(found.error);
    }
    if found.value.Some? && First(store.users, HoldsEmail(actor, Trimmed(email))).Some? {
      return Err(ScriptError("E11000 duplicate key error collection: users index: email_1"));
    }
    store.users := Update(store.users, UserKey, actor, SetDetails(fullName, email));
    return Ok(LookupPublic(store.users, actor));
  }

  // ---------------------------------------------------------------------
  // getUserChannelProfile
  // ---------------------------------------------------------------------

  datatype ChannelProfile = ChannelProfile(
    id: Id,
    fullName: Option<string>,
    username: string,
    subscribersCount: nat,
    channelsSubscribedToCount: nat,
    isSubscribed: bool,
    avatar: string,
    coverImage: string,
    email: Option<string>)

  function HasUsername(name: string): User -> bool {
    (u: User) => u.username == name
  }

  function ProfileOf(u: PublicUser, subs: seq<Subscription>, viewer: Option<Id>): ChannelProfile {
    ChannelProfile(u.id, u.fullName, u.username,
                   |SubscribersOf(subs, u.id)|, |SubscribedTo(subs, u.id)|,
                   IsSubscribed(subs, u.id, viewer), u.avatar, u.coverImage, u.email)
  }

  /** `channel[0]`: the first user with the lowercased username, seen through
      the `$project`; absent when there is none (the 404 branch cannot fire). */
  function ChannelProfileOf(users: seq<User>, subs: seq<Subscription>, username: string, viewer: Option<Id>)
      : (r: Option<ChannelProfile>)
    ensures r.Some? <==> exists u :: u in users && u.username == Lower(username)
    ensures r.Some? ==> r.value.username == Lower(username)
  {
    match First(users, HasUsername(Lower(username)))
    case None => assert forall u :: u in users ==> !HasUsername(Lower(username))(u); None
    case Some(u) => assert HasUsername(Lower(username))(u); Some(ProfileOf(Public(u), subs, viewer))
  }

  /** The counts and the flag of a channel profile. */
  lemma ChannelProfileFields(users: seq<User>, subs: seq<Subscription>, username: string, viewer: Option<Id>)
    requires ChannelProfileOf(users, subs, username, viewer).Some?
    ensures var p := ChannelProfileOf(users, subs, username, viewer).value;
            p.subscribersCount == |set i | 0 <= i < |subs| && subs[i].channel == p.id| &&
            p.channelsSubscribedToCount == |set i | 0 <= i < |subs| && subs[i].subscriber == p.id| &&
            (p.isSubscribed <==> viewer.Some? && Subscription(viewer.value, p.id) in subs)
  {
    var p := ChannelProfileOf(users, subs, username, viewer).value;
    SubscribersCountIsNumberOfSubscriptions(subs, p.id);
    SubscribedToCountIsNumberOfSubscriptions(subs, p.id);
    IsSubscribedIff(subs, p.id, viewer);
  }

  /** Two user lists that agree on everything but passwords and refresh tokens. */
  predicate SameUpToSecrets(a: seq<User>, b: seq<User>) {
    |a| == |b| && forall i :: 0 <= i < |a| ==> Public(a[i]) == Public(b[i])
  }

  /** Writing a refresh token changes nothing a client can see. */
  lemma RefreshTokenIsSecret(users: seq<User>, id: Id, t: Option<Token>)
    ensures SameUpToSecrets(users, WithRefreshToken(users, id, t))
  {
    var r := WithRefreshToken(users, id, t);
    forall i | 0 <= i < |users| ensures Public(users[i]) == Public(r[i]) {
      PublicIgnoresSecrets(users[i], users[i].password, t);
    }
  }

  /** The profile never depends on a password or a refresh token. */
  lemma ChannelProfileIgnoresSecrets(a: seq<User>, b: seq<User>, subs: seq<Subscription>,
                                     username: string, viewer: Option<Id>)
    requires SameUpToSecrets(a, b)
    ensures ChannelProfileOf(a, subs, username, viewer) == ChannelProfileOf(b, subs, username, viewer)
  {
    var h := HasUsername(Lower(username));
    forall i | 0 <= i < |a| ensures h(a[i]) <==> h(b[i]) {
      assert Public(a[i]) == Public(b[i]);
    }
    FirstAtSamePosition(a, b, h);
    if First(a, h).Some? {
      var i :| 0 <= i < |a| && First(a, h).value == a[i] && First(b, h).value == b[i];
      assert Public(a[i]) == Public(b[i]);
    }
  }

  // ---------------------------------------------------------------------
  // getWatchHistory
  // ---------------------------------------------------------------------

  /** A video owner reduced to fullName, username and avatar (and its id). */
  datatype HistoryOwner = HistoryOwner(id: Id, fullName: Option<string>, username: string, avatar: string)

  datatype HistoryEntry = HistoryEntry(video: Video, owner: Option<HistoryOwner>)

  function OwnerOf(users: seq<User>, v: Video): (r: Option<HistoryOwner>)
    ensures r.Some? <==> exists u :: u in users && u.id == v.owner
    ensures r.Some? ==> exists u :: (u in users && u.id == v.owner &&
              r.value == HistoryOwner(u.id, u.fullName, u.username, u.avatar))
  {
    match FindKey(users, UserKey, v.owner)
    case None => assert forall u :: u in users ==> UserKey(u) != v.owner; None
    case Some(u) => Some(HistoryOwner(u.id, u.fullName, u.username, u.avatar))
  }

  function Entries(users: seq<User>, vs: seq<Video>): (r: seq<HistoryEntry>)
    ensures |r| == |vs|
    ensures forall i :: 0 <= i < |vs| ==> r[i] == HistoryEntry(vs[i], OwnerOf(users, vs[i]))
  {
    if vs == [] then [] else [HistoryEntry(vs[0], OwnerOf(users, vs[0]))] + Entries(users, vs[1..])
  }

  function InHistory(history: seq<Id>): Video -> bool {
    (v: Video) => v.id in history
  }

  /** `user[0].watchHistory`: the videos whose id is in the user's history, in
      collection order, each with its owner; a missing user makes `user[0]`
      undefined and the handler throws. */
  function WatchHistory(users: seq<User>, videos: seq<Video>, actor: Id): (r: Result<seq<HistoryEntry>>)
    ensures r.Err? <==> forall u :: u in users ==> u.id != actor
    ensures r.Err? ==> r.error.ScriptError?
  {
    match FindKey(users, UserKey, actor)
    case None => Err(ScriptError("Cannot read properties of undefined (reading 'watchHistory')"))
    case Some(u) => Ok(Entries(users, Filter(videos, InHistory(u.watchHistory))))
  }

  /** Every entry is a stored video in the user's history, every such video
      appears, and each owner is the video's owner reduced to three fields. */
  lemma WatchHistoryContents(users: seq<User>, videos: seq<Video>, actor: Id)
    requires FindKey(users, UserKey, actor).Some?
    ensures var u := FindKey(users, UserKey, actor).value;
            var r := WatchHistory(users, videos, actor);
            r.Ok? &&
            (forall e :: e in r.value ==> e.video in videos && e.video.id in u.watchHistory) &&
            (forall v :: v in videos && v.id in u.watchHistory ==> exists e :: e in r.value && e.video == v) &&
            (forall e :: e in r.value ==> e.owner == OwnerOf(users, e.video))
  {
    var u := FindKey(users, UserKey, actor).value;
    var vs := Filter(videos, InHistory(u.watchHistory));
    var r := Entries(users, vs);
    forall e | e in r ensures e.video in vs && e.owner == OwnerOf(users, e.video) {
      var i :| 0 <= i < |r| && r[i] == e;
      assert e.video == vs[i];
    }
    forall v | v in videos && v.id in u.watchHistory ensures exists e :: e in r && e.video == v {
      assert v in vs;
      var i :| 0 <= i < |vs| && vs[i] == v;
      assert r[i] in r;
    }
  }
}
