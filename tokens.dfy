/** Issuing a session: `generateAccessandRefreshToken(userID)` finds the
    user, signs an access token and a refresh token, stores the refresh
    token on the user record and saves it. Signing is not modelled: the
    pair it would produce arrives as `minted`, and `None` stands for a
    signing or saving step that threw. */
module Tokens {
  import opened Common
  import opened Collections
  import opened Models

  datatype TokenPair = TokenPair(accessToken: Token, refreshToken: Token)

  function SetRefreshToken(t: Option<Token>): User -> User {
    (u: User) => u.(refreshToken := t)
  }

  /** The users after the record with id `id` has had its refresh token set to `t`. */
  function WithRefreshToken(users: seq<User>, id: Id, t: Option<Token>): seq<User> {
    Update(users, UserKey, id, SetRefreshToken(t))
  }

  /** After the write, the user's stored refresh token is `t`; every other
      field of that user, and every other user, is as before. */
  lemma StoredRefreshToken(users: seq<User>, id: Id, t: Option<Token>)
    requires FindKey(users, UserKey, id).Some?
    ensures var u := FindKey(users, UserKey, id).value;
            FindKey(WithRefreshToken(users, id, t), UserKey, id) == Some(u.(refreshToken := t))
  {
    FindAfterUpdate(users, UserKey, id, SetRefreshToken(t), id);
  }

  /** Only the refresh token field changes: position by position, every
      record agrees with the old one on everything else. */
  lemma OnlyRefreshTokenChanges(users: seq<User>, id: Id, t: Option<Token>)
    ensures var r := WithRefreshToken(users, id, t);
            |r| == |users| &&
            forall i :: 0 <= i < |users| ==>
              r[i] == users[i].(refreshToken := r[i].refreshToken) &&
              (users[i].id != id ==> r[i] == users[i])
  {
  }

  /** Writing a second token keeps only the second one. */
  lemma SecondTokenOverwritesFirst(users: seq<User>, id: Id, t1: Option<Token>, t2: Option<Token>)
    ensures WithRefreshToken(WithRefreshToken(users, id, t1), id, t2) == WithRefreshToken(users, id, t2)
  {
    UpdateCompose(users, UserKey, id, SetRefreshToken(t1), SetRefreshToken(t2), SetRefreshToken(t2));
  }

  /** A write to an id no user has changes nothing. */
  lemma UnknownIdStoresNothing(users: seq<User>, id: Id, t: Option<Token>)
    requires FindKey(users, UserKey, id).None?
    ensures WithRefreshToken(users, id, t) == users
  {
    UpdateAbsent(users, UserKey, id, SetRefreshToken(t));
  }

  /** The outcome of issuing a session for `id`, with the new refresh token
      and the error each unhappy path throws. */
  function Issue(users: seq<User>, id: string, minted: Option<TokenPair>): (r: Result<TokenPair>)
    ensures r.Err? ==> (r.error.MongooseError? <==> !IsValidObjectId(id))
    ensures !IsValidObjectId(id) ==> r.Err? && r.error.MongooseError?
    ensures IsValidObjectId(id) && FindKey(users, UserKey, id).None? ==>
              r == Err(ApiError(400, "UserId not found"))
    ensures IsValidObjectId(id) && FindKey(users, UserKey, id).Some? ==>
              r == (if minted.Some? then Ok(minted.value) else Err(ApiError(500, "Error generating access/refresh token")))
  {
    match FindById(users, UserKey, id)
    case Err(e) => Err(e)
    case Ok(None) => Err(ApiError(400, "UserId not found"))
    case Ok(Some(_)) =>
      if minted.Some? then Ok(minted.value)
      else Err(ApiError(500, "Error generating access/refresh token"))
  }

  /** `generateAccessandRefreshToken`: on success the stored refresh token is
      the returned one and nothing else changes; on any failure nothing is stored. */
  method GenerateAccessAndRefreshToken(store: Store, id: string, minted: Option<TokenPair>)
      returns (r: Result<TokenPair>)
    modifies store`users
    ensures r == Issue(old(store.users), id, minted)
    ensures r.Ok? ==> store.users == WithRefreshToken(old(store.users), id, Some(r.value.refreshToken))
    ensures r.Err? ==> store.users == old(store.users)
  {
    var found := FindById(store.users, UserKey, id);
    if found.Err? {
      return Err(found.error);
    }
    if found.value.None? {
      return Err(ApiError(400, "UserId not found"));
    }
    if minted.None? {
      return Err(ApiError(500, "Error generating access/refresh token"));
    }
    var pair := minted.value;
    store.users := WithRefreshToken(store.users, id, Some(pair.refreshToken));
    return Ok(pair);
  }
}
