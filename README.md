# YouTweet backend core, modelled in Dafny

YouTweet is an Express/Mongoose backend for a video-sharing site with
tweets, comments, likes, playlists and subscriptions. This project models
its request handlers and middlewares over an in-memory document store and
proves properties of that model:

- **Sessions** (`tokens.dfy`, `auth.dfy`, `users.dfy`): issuing an
  access/refresh token pair and storing the refresh token on the user;
  logging in, logging out and refreshing; the bearer-token guard.
- **Viewer-relative views** (`joins.dfy` and the controllers): like and
  subscriber counts, the viewer's `isLiked` and `isSubscribed` flags,
  playlist totals, and projections that never show a password or a
  refresh token.
- **Listing** (`videos.dfy`, `paging.dfy`): the video listing's filter,
  sort and page, and the comment list's page defaults.
- **Guarded mutations** (the controllers): the validation chains with
  their status codes; owner checks; `$addToSet`/`$pull` on playlists and
  on the watch history; delete cascades.
- **Error envelope** (`errors.dfy`): the error middleware.

The store is a class `Models.Store` with one `seq` field per collection,
held in natural (insertion) order. A handler that writes is a method that
`modifies` only the collections it touches. It is specified by a pure
decision function that gives the outcome and the status code for every
case. Aggregation pipelines are pure functions. Lemmas state their counts
and memberships against independent index-set definitions.

Some things outside the program become parameters:

- the tokens `jwt.verify` accepts: a `map<Token, Claims>`;
- the token pair signing would produce: an `Option<TokenPair>`, where
  `None` means signing or saving threw;
- the password comparison: a function;
- each blob upload's outcome: an `Option<Blob>`, where `None` means the
  upload returned null;
- the `_id` and `createdAt` the database assigns.

Where the document store's behaviour depends on the Mongoose version, the
model follows Mongoose 7 or later. Two consequences: an update drops keys
whose value is undefined, and `Model.update` does not exist.

A thrown error is `Common.Thrown`:
- `ApiError(code, message)` is an `apiError`;
- `MongooseError` is a cast or validation error;
- `ScriptError` is a JavaScript TypeError or ReferenceError.

`ErrorMiddleware.RaisedStatus` gives the status code a client sees for
each kind.

Status codes and outcomes follow the code, even where common REST
conventions or the evident intent differ:
- A token that does not verify is answered with 404, not 401.
- A duplicate username or email is answered with 400, not 409.
- A failed upload is answered with 500, not 503.
- Non-owners are refused with 403 for videos, with 400 for comments and
  for adding to, deleting or updating a playlist, with 404 for removing
  from a playlist, and with 404 for tweet edits.
- Refresh is not single-use: the stored refresh token is never compared
  (`UserController.RefreshIgnoresStoredToken`).
- Logout does not clear the stored refresh token. Mongoose drops the
  undefined key from `$set: { refreshToken: undefined }`, so the update
  writes nothing. The handler then fails on `clearCookies`, so logout is
  never answered with success.
- A video detail without an authenticated viewer is refused with 400
  rather than shown with false flags.
- `togglePublishStatus` always unpublishes.
- `deleteTweet` refuses every request.
- `addComment` only lists the comments.
- `updateTweet` never rewrites a tweet: past its checks it calls
  `Tweet.update`, which current Mongoose does not define, and fails with
  a TypeError (500).

There are two kinds of exception, where the model uses the evident intent
instead:
- the ownership guard (see "## Findings");
- the defects listed under "## Left out": the crash-only typos, the
  unawaited lookup in the auth guard, and the defects of the schema files.

## Model

| member | source | states |
|---|---|---|
| Models.FindById | src/utils/generateAccessandRefreshToken.js:5-8 | A lookup by id throws a cast error exactly when the id is not a well-formed ObjectId. A hit has that id and is in the collection. A miss means no record has the id. |
| Models.LookupPublic | src/middlewares/auth.middleware.js:20 | The user found by id without password and refresh token exists exactly when some stored user has the id, and is that user's public view. |
| Models.PublicIgnoresSecrets | src/controllers/user.Controller.js:129-135 | Changing a user's password or refresh token changes nothing in the public view returned to clients. |
| Tokens.Issue | src/utils/generateAccessandRefreshToken.js:4-21 | The outcome of issuing a pair. A malformed id is always a cast error, and a cast error means a malformed id. An unknown id gives 400 "UserId not found". A signing or saving failure gives 500. Otherwise the minted pair. |
| Tokens.GenerateAccessAndRefreshToken | src/utils/generateAccessandRefreshToken.js:4-21 | On success the stored refresh token is the one returned and nothing else is written. On every failure the users are unchanged. |
| Tokens.StoredRefreshToken | src/utils/generateAccessandRefreshToken.js:11-14 | After the write, the user's record is the old record with exactly the new refresh token. |
| Tokens.OnlyRefreshTokenChanges | src/utils/generateAccessandRefreshToken.js:12-13 | Record by record, only the refresh-token field of the named user can differ. Every other user is identical. |
| Tokens.SecondTokenOverwritesFirst | src/utils/generateAccessandRefreshToken.js:12 | Two writes leave the same store as the second write alone. |
| Tokens.UnknownIdStoresNothing | src/utils/generateAccessandRefreshToken.js:5-8 | A write for an id no user has leaves the users unchanged. |
| AuthMiddleware.BearerToken | src/middlewares/auth.middleware.js:15 | No Authorization header means no token. A header always yields a token. |
| AuthMiddleware.BearerHeaderYieldsToken | src/middlewares/auth.middleware.js:15 | The header "Bearer t" yields exactly t (the header form of section 2.1 of RFC 6750). |
| AuthMiddleware.BareHeaderIsToken | src/middlewares/auth.middleware.js:15 | A header without "Bearer " is taken whole as the token. |
| AuthMiddleware.Verify | src/middlewares/auth.middleware.js:18 | Verification succeeds exactly for a non-empty token the access secret accepts, with that token's claims. |
| AuthMiddleware.Authenticate | src/middlewares/auth.middleware.js:12-31 | Every verification failure becomes 404 "Unauthorized access". Otherwise the request's user is the user named by the token's `_id`, without secrets. |
| AuthMiddleware.IdentityFromTokenOnly | src/middlewares/auth.middleware.js:17-30 | For a bearer header, identity is decided by the token alone: it resolves to the user of its claim when it verifies, and is refused with 404 when it does not. |
| AuthMiddleware.Request.constructor | src/middlewares/auth.middleware.js:12 | A fresh request has no user and has not reached `next`. |
| AuthMiddleware.VerifyJwt | src/middlewares/auth.middleware.js:12-31 | After a failure the request is untouched and `next` is not called. After a success `req.user` is the resolved user and `next` is called. |
| ErrorMiddleware.Normalise | src/middlewares/error.middleware.js:10-15 | Every thrown value becomes an `apiError`. |
| ErrorMiddleware.ErrorHandler | src/middlewares/error.middleware.js:6-25 | An `apiError` keeps its status, message and errors. Any other error answers 500 exactly when it has no status code of its own and is not a Mongoose error, and 400 otherwise. The body's message is the normalised message. The stack is included exactly in development. |
| ErrorMiddleware.ForeignStatusCodeBecomes400 | src/middlewares/error.middleware.js:11 | A non-`apiError` carrying its own status code (404) is answered with 400, by the precedence of `? :` under `\|\|`. |
| ErrorMiddleware.Defaults | src/middlewares/error.middleware.js:13-14 | The message defaults to "Something went wrong" and the errors to []. |
| ErrorMiddleware.RaisedStatus | src/middlewares/error.middleware.js:10-24 | Each kind of handler error reaches the client with its status: an `apiError`'s own code and message, 400 for a Mongoose error, 500 for a script error. |
| Joins.LikesCountIsNumberOfLikes | src/controllers/videos.controller.js:164-170 | `likesCount` is the number of likes whose target is the record. |
| Joins.IsLikedIff | src/controllers/videos.controller.js:219-228 | `isLiked` holds exactly when a like on the record by the viewer exists. It is false with no viewer. |
| Joins.SubscribersCountIsNumberOfSubscriptions | src/controllers/user.Controller.js:335-349 | `subscribersCount` is the number of subscriptions whose channel is the user. |
| Joins.SubscribedToCountIsNumberOfSubscriptions | src/controllers/user.Controller.js:342-358 | `channelsSubscribedToCount` is the number of subscriptions whose subscriber is the user. |
| Joins.IsSubscribedIff | src/controllers/user.Controller.js:359-365 | `isSubscribed` holds exactly when the viewer subscribes to the channel. It is false with no viewer. |
| Paging.QueryNumber | src/controllers/videos.controller.js:13 | An absent page or limit parameter takes its default. |
| Paging.Normalise | src/controllers/videos.controller.js:78-81 | The effective page or limit is the given number when it is at least 1, and the default otherwise. |
| Paging.Window | src/controllers/videos.controller.js:83 | A page holds at most `limit` items. They are the results at consecutive positions from `(page-1)*limit`, and a page inside the result is full. |
| Paging.DefaultsArePageOneOfTen | src/controllers/comment.controller.js:12 | With no parameters, the answer is page 1 with the first ten results. |
| Paging.TotalPagesIsCeiling | src/controllers/videos.controller.js:83 | `totalPages` is the ceiling of the number of results over the limit, and 1 for an empty result, as the paginate plugin reports it. |
| Paging.PastTheLastPage | src/controllers/videos.controller.js:83 | A page past the last is empty, and the totals are still reported. |
| Paging.PagesUpToIsPrefix | src/controllers/videos.controller.js:78-83 | Reading pages 1 to n yields the first n·limit results, in order. |
| Paging.AllPagesCoverTheResult | src/controllers/videos.controller.js:83 | Reading pages 1 to `totalPages` yields every result exactly once, in order. |
| UserController.Registration | src/controllers/user.Controller.js:13-103 | Registration either fails with 400 or 500, or produces a record the schema admits (required fields present, username and email unique) with the assigned id. |
| UserController.Admission | src/controllers/user.Controller.js:24-89 | Past the whitespace check, every failure is a 400 or 500 other than the blank-field error, and a success is admissible. |
| UserController.BlankFieldIff | src/controllers/user.Controller.js:17-23 | Registration fails with "All fields are required" exactly when some supplied field is non-empty and all white space. An absent field never trips it. |
| UserController.WhitespaceOnlyIsBlank | src/controllers/user.Controller.js:17-23 | Any non-empty all-white-space value counts as blank. |
| UserController.ExistingUserIff | src/controllers/user.Controller.js:24-35 | Past the whitespace check, registration fails with 400 "User already exists" exactly when a stored user has the same username or the same email. |
| UserController.CreatedUserFields | src/controllers/user.Controller.js:69-89 | A created user has the lowercased username, and the email and full name as given, all three trimmed as the schema does. It has the avatar url. Its cover image is the cover url, or "" when the upload gave none. It has no refresh token and an empty history. |
| UserController.RegisterUser | src/controllers/user.Controller.js:13-103 | On success the new user is appended and returned without secrets. On failure nothing is stored. |
| UserController.LoginLookup | src/controllers/user.Controller.js:111-117 | The lookup finds no one exactly when no user has the email or the username. A hit is a stored user with one of them. |
| UserController.LoggedInUser | src/controllers/user.Controller.js:105-152 | 404 when no user matches, 404 on a wrong password, 500 when issuing fails. On success the stored refresh token equals the returned one, and the returned user is the stored record without secrets. On failure nothing is written. |
| UserController.LoggedOutUser | src/controllers/user.Controller.js:154-173 | The update writes nothing, because Mongoose drops the undefined key, so the stored refresh token stays. The response then fails on `clearCookies` with a TypeError (500). The store is unchanged. |
| UserController.RefreshTarget | src/controllers/user.Controller.js:175-223 | A refresh fails with 401 exactly when neither the cookie nor the body has a token. Every other failure is a 404. A success names a stored user. |
| UserController.RefreshIgnoresStoredToken | src/controllers/user.Controller.js:183-202 | The refresh outcome does not depend on the stored refresh token, so neither a later login nor a logout revokes an older token that still verifies. |
| UserController.RefreshAccessToken | src/controllers/user.Controller.js:175-223 | On success the new pair is returned and its refresh token stored. Every failure is a 401 or a 404 (401 exactly when no token was given) and writes nothing. |
| UserController.PasswordChangeKeepsTheRest | src/controllers/user.Controller.js:225-243 | A password change sets that user's password and keeps every public field and every refresh token. |
| UserController.ChangeCurrentPassword | src/controllers/user.Controller.js:225-243 | The new password is stored for an existing user. A malformed id is a cast error and a missing user a TypeError, and neither writes anything. |
| UserController.DetailsUpdate | src/controllers/user.Controller.js:256-263 | After the update the user has the name and email given, trimmed by the schema. A value not given is kept, and nothing else changes. |
| UserController.UpdateAccountDetails | src/controllers/user.Controller.js:249-268 | 400 and no write when neither name nor email is given. A given email that another user already holds breaks the unique index: a non-Mongoose error (500) and no write. Otherwise the values given are written, the others are kept, and the updated user is returned. |
| UserController.ChannelProfileOf | src/controllers/user.Controller.js:322-390 | A profile exists exactly when a user has the lowercased username, and carries that username. |
| UserController.ChannelProfileFields | src/controllers/user.Controller.js:335-366 | The subscriber and subscribed-to counts count the matching subscriptions. `isSubscribed` holds exactly when the viewer subscribes. |
| UserController.RefreshTokenIsSecret | src/controllers/user.Controller.js:367-378 | Writing a refresh token changes nothing a client can see of any user. |
| UserController.ChannelProfileIgnoresSecrets | src/controllers/user.Controller.js:367-378 | The channel profile is the same for any two stores that differ only in passwords and refresh tokens. |
| UserController.OwnerOf | src/controllers/user.Controller.js:410-424 | A history entry's owner exists exactly when the video's owner does, reduced to fullName, username and avatar. |
| UserController.Entries | src/controllers/user.Controller.js:400-428 | One entry per video, in order, each with its owner. |
| UserController.WatchHistory | src/controllers/user.Controller.js:392-436 | The history fails, with a TypeError, exactly when the user does not exist. |
| UserController.WatchHistoryContents | src/controllers/user.Controller.js:392-436 | Every entry is a stored video in the user's history, every such video appears, and each owner is the video's owner reduced to three fields. |
| VideoController.OwnerDetailsOf | src/controllers/videos.controller.js:55-70 | A listing's owner details exist exactly when the owner exists, and are its id and username. |
| VideoController.ListingVideos | src/controllers/videos.controller.js:55-70 | The videos of a listing, in order. |
| VideoController.JoinOwners | src/controllers/videos.controller.js:55-70 | The owner join keeps exactly the videos whose owner exists, in order, each with its owner's details. |
| VideoController.RunStagesAppend | src/controllers/videos.controller.js:18-53 | Running a pipeline with one more pushed stage applies that stage to the earlier result. |
| VideoController.PushMatch | src/controllers/videos.controller.js:18-42 | Pushing a `$match` stage onto a pipeline that selects by one condition gives a pipeline that selects by both conditions together. |
| VideoController.MatchPipelineSelects | src/controllers/videos.controller.js:18-42 | The `$match` stages, pushed as the handler pushes them (text query, owner, published), select exactly the videos that meet the listing's selection condition, in collection order. |
| VideoController.ListingOfPipeline | src/controllers/videos.controller.js:45-70 | Once the match stages select the listing's videos, pushing the `$sort` stage and joining the owners gives exactly the reference listing. |
| VideoController.ListedVideosAreSelected | src/controllers/videos.controller.js:18-42 | Every listed video is stored and published. It contains the query case-insensitively in title or description when a query is given, and belongs to `userId` when one is given. |
| VideoController.SelectedVideosAreListed | src/controllers/videos.controller.js:18-70 | Every selected video whose owner exists is listed. |
| VideoController.ListingsOrderedAndComplete | src/controllers/videos.controller.js:45-53 | The listing is ordered on the requested key and direction, newest `createdAt` first when `sortBy` or `sortType` is missing, and is a permutation of the selected videos with an owner. |
| VideoController.GetAllVideos | src/controllers/videos.controller.js:12-88 | 400 exactly when a given `userId` is malformed. Otherwise the answer is the requested page of the reference listing, with page 1 and limit 10 as defaults. |
| VideoController.VideoDetailOf | src/controllers/videos.controller.js:158-245 | A detail exists exactly when a video has the id. |
| VideoController.VideoDetailFields | src/controllers/videos.controller.js:164-230 | `likesCount` counts the likes on the video. `isLiked` holds exactly when the viewer liked it. The owner's `subscribersCount` counts its subscriptions, and `isSubscribed` holds exactly when the viewer subscribes. |
| VideoController.FetchCountsOneView | src/controllers/videos.controller.js:251-255 | A fetch adds exactly one view to that video and changes no other video. |
| VideoController.WatchAddsOnce | src/controllers/videos.controller.js:257-261 | The watch history gains the video exactly once and stays duplicate-free. A second fetch changes nothing more. |
| VideoController.GetVideoById | src/controllers/videos.controller.js:147-268 | 400 without a well-formed video id or viewer, with no write. Otherwise the detail read before the fetch, one view more, and the video in the viewer's history. |
| VideoController.PublishDecision | src/controllers/videos.controller.js:90-145 | A blank title or description is refused first with the 400 "All fields (title and description) are required.". Without `req.files` the upload is refused with 400, and so is an empty path. When `req.files` exists but lacks the video or thumbnail part, reading `[0]` is a TypeError (500). Once both paths are present, a failed video upload is the first 500 and a failed thumbnail upload the second. After both uploads succeed, the video is created exactly when title, description and duration are present; otherwise the schema validation fails (400). The created video carries the given title, description, the upload's duration and both uploaded blobs. It is unpublished, has 0 views and is owned by the acting user. |
| VideoController.LocalPath | src/controllers/videos.controller.js:98-99 | No path without `req.files`. With `req.files`, a TypeError exactly when the part is missing, and otherwise that part's path. |
| VideoController.PublishAVideo | src/controllers/videos.controller.js:90-145 | The outcome is `PublishDecision`'s, with its error paths and the content of the new video. On success that video is appended. On failure nothing is stored. |
| VideoController.OwnedVideo | src/controllers/videos.controller.js:337-350 | The shared checks: 400 for a malformed id, 404 for an unknown video; a success is a stored video owned by the acting user. |
| VideoController.NonOwnerIsForbidden | src/controllers/videos.controller.js:348-350 | A user who does not own an existing video is refused with 403. |
| VideoController.OwnerIsAdmitted | src/controllers/videos.controller.js:348-350 | The owner of an existing video passes the checks. |
| VideoController.OwnedVideoAsWritten | src/controllers/videos.controller.js:288-290 | With the guard as written, nobody with a non-empty id passes. |
| VideoController.OwnerIsRefusedAsWritten | src/controllers/videos.controller.js:288-290 | As written, the owner of an existing video is refused with 403, while the intended check admits them. |
| VideoController.UpdateDecision | src/controllers/videos.controller.js:270-331 | An update needs a title, a description and an uploaded thumbnail. It applies only to a stored video the acting user owns, and changes only those three fields. |
| VideoController.UpdateVideo | src/controllers/videos.controller.js:270-331 | On success only that video is rewritten. On refusal nothing changes. |
| VideoController.DeleteCascadeRemovesExactly | src/controllers/videos.controller.js:352-367 | After the cascade, no video has the id and no like or comment refers to it. Every other record is kept, and the number of likes removed is the video's `likesCount`. |
| VideoController.DeleteVideo | src/controllers/videos.controller.js:333-372 | After the checks, the video, its likes and its comments are removed. On refusal nothing changes. |
| VideoController.TogglePublishStatus | src/controllers/videos.controller.js:374-411 | After the checks, the video is unpublished. On refusal nothing changes. |
| VideoController.ToggleNeverPublishes | src/controllers/videos.controller.js:394 | Toggling again changes nothing, and a toggled video is never published. |
| PlaylistController.SummaryTotals | src/controllers/playlist.controller.js:64-79 | `totalVideos` is the number of resolved videos and `totalViews` the sum of their views. |
| PlaylistController.FirstThumbnail | src/controllers/playlist.controller.js:64-79 | `firstVideoThumbnail` is the thumbnail url of the first resolved video, and is absent when there is none. |
| PlaylistController.Summaries | src/controllers/playlist.controller.js:35-101 | One summary per playlist, in order. |
| PlaylistController.UserPlaylists | src/controllers/playlist.controller.js:35-101 | 400 exactly when the user id is malformed. Otherwise one summary per playlist the user owns. |
| PlaylistController.UserPlaylistsAreTheOwners | src/controllers/playlist.controller.js:43-47 | Each summary is of a playlist the user owns, and each such playlist has its summary. |
| PlaylistController.ShowVideos | src/controllers/playlist.controller.js:116-190 | One shown video per published video, in order. |
| PlaylistController.PlaylistById | src/controllers/playlist.controller.js:103-196 | 400 for a malformed id, 404 for an unknown playlist. A success is about that playlist. |
| PlaylistController.PlaylistDetailTotals | src/controllers/playlist.controller.js:135-164 | `totalVideos` counts the playlist's published videos and `totalViews` sums their views. |
| PlaylistController.PlaylistDetailVideos | src/controllers/playlist.controller.js:129-139 | The detail shows exactly the playlist's published videos: every shown video is a published listed video, and every published listed video is shown. |
| PlaylistController.CreatePlaylist | src/controllers/playlist.controller.js:9-33 | 400 without both a name and a description. Otherwise a new empty playlist owned by the acting user is appended. |
| PlaylistController.MembershipCheck | src/controllers/playlist.controller.js:201-217 | Add and remove check, in order: 400 for a malformed id, 404 for a missing playlist or video, then the owner. A success names the acting user's playlist and an existing video. |
| PlaylistController.NonOwnerCannotChangeMembership | src/controllers/playlist.controller.js:215-217 | A user who does not own the playlist is refused. |
| PlaylistController.AddVideoToPlaylist | src/controllers/playlist.controller.js:198-239 | After the checks the playlist gains the video with `$addToSet`. On refusal nothing changes. |
| PlaylistController.AddIsSetInsertion | src/controllers/playlist.controller.js:219-225 | After the add the video is listed exactly once and the list stays duplicate-free. Adding again changes nothing. |
| PlaylistController.RemoveVideoFromPlaylist | src/controllers/playlist.controller.js:241-282 | After the checks every occurrence of the video is pulled. On refusal nothing changes. |
| PlaylistController.RemoveIsPull | src/controllers/playlist.controller.js:265-271 | The remove drops every occurrence and keeps the other entries in order. Removing again changes nothing. |
| PlaylistController.OwnedPlaylist | src/controllers/playlist.controller.js:288-300 | 400 for a malformed id, 404 for a missing playlist, 400 for a non-owner. A success is the owner's playlist. |
| PlaylistController.DeletePlaylist | src/controllers/playlist.controller.js:284-312 | After the checks that playlist is removed. On refusal nothing changes. |
| PlaylistController.DeleteRemovesExactly | src/controllers/playlist.controller.js:302 | After the delete no playlist has the id and every other one is kept. |
| PlaylistController.UpdatePlaylistCheck | src/controllers/playlist.controller.js:319-335 | Name and description are checked before the id and the owner. |
| PlaylistController.UpdatePlaylist | src/controllers/playlist.controller.js:314-355 | After the checks the playlist is renamed. On refusal nothing changes. |
| PlaylistController.RenameChangesOnlyNameAndDescription | src/controllers/playlist.controller.js:337-344 | A rename changes only the name and description of that one playlist. |
| CommentController.ViewsOf | src/controllers/comment.controller.js:41-75 | One view per comment, in order. |
| CommentController.VideoComments | src/controllers/comment.controller.js:9-93 | A malformed video id fails. Otherwise the page reports as many items as the video has comments. |
| CommentController.CommentListIsTheVideosComments | src/controllers/comment.controller.js:20-24 | The list holds a view of each of the video's comments and of nothing else. |
| CommentController.CommentListNewestFirst | src/controllers/comment.controller.js:58-62 | The list is ordered newest `createdAt` first. |
| CommentController.CommentViewFields | src/controllers/comment.controller.js:34-75 | `likesCount` counts the likes on the comment. `isLiked` holds exactly when the viewer liked it. The author shown is the comment's owner, reduced to username and full name. |
| CommentController.AddComment | src/controllers/comment.controller.js:94-178 | The handler answers with the video's comment list and stores nothing. |
| CommentController.OwnedComment | src/controllers/comment.controller.js:184-196 | A cast error exactly for a malformed id, 404 for a missing comment, 400 for a non-owner. A success is the owner's comment. |
| CommentController.UpdateCommentCheck | src/controllers/comment.controller.js:184-196 | Missing content is refused with 400 before any lookup. |
| CommentController.UpdateComment | src/controllers/comment.controller.js:180-215 | After the checks the comment's content is replaced. On refusal nothing changes. |
| CommentController.EditChangesOnlyContent | src/controllers/comment.controller.js:198-204 | An edit changes only the content of that one comment. |
| CommentController.DeleteComment | src/controllers/comment.controller.js:217-243 | After the checks the comment and the requester's likes on it are removed. On refusal nothing changes. |
| CommentController.DeleteCommentRemovesExactly | src/controllers/comment.controller.js:231-236 | After the delete the comment is gone, the requester no longer likes it, and every other like is kept, including the requester's likes on anything else. |
| TweetController.NewTweet | src/controllers/tweet.controller.js:9-18 | Empty content is refused with 400. A new tweet carries the content and is owned by the acting user. |
| TweetController.BodyOwnerIgnored | src/controllers/tweet.controller.js:15-18 | An `owner` in the body has no effect. |
| TweetController.CreateTweet | src/controllers/tweet.controller.js:7-27 | On success the tweet is appended. On failure nothing is stored. |
| TweetController.ShowTweets | src/controllers/tweet.controller.js:68-100 | One view per tweet, in order. |
| TweetController.UserTweets | src/controllers/tweet.controller.js:29-108 | 400 exactly for a malformed user id. Otherwise one view per tweet of the user. |
| TweetController.UserTweetsAreTheirs | src/controllers/tweet.controller.js:36-99 | The list is the user's tweets and nothing else, newest first. |
| TweetController.TweetViewFields | src/controllers/tweet.controller.js:56-85 | `likesCount` counts the likes on the tweet. `isLiked` holds exactly when the viewer liked it. The owner details are the tweet's owner. |
| TweetController.UpdateTweetCheck | src/controllers/tweet.controller.js:115-130 | Missing content, a malformed id, a missing tweet and a non-owner are each refused with 404, in that order. A success is the owner's tweet. |
| TweetController.UpdateTweetDecision | src/controllers/tweet.controller.js:110-141 | Every request fails. A refused check keeps its 404. A request that passes the checks fails with a TypeError from `Tweet.update`. |
| TweetController.UpdateTweet | src/controllers/tweet.controller.js:110-141 | The outcome is `UpdateTweetDecision`'s, always an error, and no tweet is written. |
| TweetController.DeleteTweetDecision | src/controllers/tweet.controller.js:143-166 | Every request is refused: a well-formed id with 400 "Tweet cannot be deleted", a malformed one with a cast error. |
| TweetController.DeleteTweet | src/controllers/tweet.controller.js:143-166 | The handler refuses every request and deletes nothing. |

## Left out

- Network, cookies and response building: a handler's result is its status and value. Cookie options and `clearCookies` are not modelled beyond the error the latter raises.
- JWT signing and verification, and password hashing: the accepted tokens, the minted pair and the password comparison are parameters (JWT per RFC 7519 is opaque here).
- Blob uploads and deletions: each upload's result is a parameter. The old-thumbnail and blob deletions on update and delete have no effect on the store and are not modelled.
- `$sample` in `getAllVideos`: the random reordering is random, so it is not modelled. The listing is the filtered and sorted sequence.
- The `aggregatePaginate` library: only the window, totals and prev/next flags are modelled.
- MongoDB regular expressions: the text query is a literal, case-insensitive (ASCII) substring.
- Lower, UserController.CreatedUserFields, UserController.ChannelProfileOf: case mapping is ASCII-only. `Lower` maps only `A`–`Z`, while `String.prototype.toLowerCase` lowercases all of Unicode (user controller 76 when storing a username, 331 when looking up a channel). A username such as "ÄBC" is stored as "äbc" by the source and as "Äbc" by the model. Some characters, such as "İ", lowercase to two code units, so the source's result can be longer than its input, while `Lower` keeps the length.
- The asyncHandler wrapper and concurrency, including the non-atomic view increment: each request runs alone.
- `getCurrentUser`, `updateUserCoverImage`, `updateUserAvatarImage`: these are outside the modelled core.
- The auth guard's unawaited lookup: `req.user` is modelled as the user the query would resolve to, so handlers read the acting user's id. As written, the Query object has no `_id`, and every handler that reads `req.user._id` would fail.
- AuthMiddleware.VerifyJwt: the 401 branch for a missing user is unreachable because the lookup is not awaited. A token for a deleted user reaches `next` with no user.
- Crash-only typos are modelled as the evident intent:
  - `req.use` (videos controller 154, playlist controller 21);
  - `decoded` (user controller 187);
  - `findTweetById` (tweet controller 150);
  - the undestructured title and description in `updateVideo`;
  - the missing imports of `Video` and `Like` in the comment controller and of `Like` in the videos controller;
  - `req._id` (playlist controller 258);
  - the import of `deletedFromCloudinary` (user controller 6, videos controller 9), a name the cloudinary module does not export (it exports only `uploadOnCloudinary`, `src/utils/cloudinary.js:27`), so neither module links as written;
  - `Comment` used without an import in `deleteVideo` (videos controller 365);
  - `type: string` for `videoFile` (`src/models/videos.models.js:5-7`): there is no `string` binding, so loading the video model throws a ReferenceError and the module never loads. The model takes `videoFile` to be the blob the controllers write.
- The comment and playlist ownership guards are modelled with the intended owner comparison. They share the video guard's precedence defect, which is described once, under "## Findings", for the video guard.
- The tweet guards do not share that defect. `updateTweet`'s guard (tweet controller 128) compares two strings and is correct as written, and `UpdateTweetCheck` models it as written. `deleteTweet`'s owner check (tweet controller 157) compares a string with an ObjectId, so it would refuse every user, but it is unreachable: the inverted id check at line 146 refuses every well-formed id first.
- Schema mismatches are not reproduced:
  - the `timestamp` option typo, which would leave records with no `createdAt`;
  - `user` versus `owner` in the playlist and comment schemas;
  - `subscribers`/`types` versus `subscriber`/`channel` in the subscription schema;
  - the comment model: `src/models/comment.models.js:2` imports the `mongoose-paginate-v2` plugin, and line 21 builds the model from `{ commentSchema }`, a plain object whose only path is `commentSchema`, so the model has none of the comment fields;
  - the String type of `thumbnail` (`src/models/videos.models.js:9-12`), while the controllers write a `{url, public_id}` object.
  
  The model uses the field names the controllers read.
- `avatar.url` projections: the stored avatar is a url string, so `avatar.url` selects nothing. The listing, tweet and comment views carry no avatar.
- Text validation: `Present` stands for a supplied non-empty string, and JavaScript truthiness of other types (numbers, arrays) is not modelled.
- VideoController.ListingsOrderedAndComplete: only `views`, `duration` and `createdAt` are sort keys. For any other `sortBy`, including the string and id fields `title`, `description`, `videoFile`, `thumbnail`, `owner` and `_id`, the model uses a constant key and keeps collection order. MongoDB orders by that field instead. Only for a name that no video has as a field does MongoDB also treat all videos as equal.
- TweetController.UpdateTweet: the behaviour of `Tweet.update(tweetId, ...)` (tweet controller 132) depends on the Mongoose version, which is not part of this model. The model takes Mongoose 7 or later, where `Model.update` is gone and the call is a TypeError (500). Under 5.x and 6.x the string filter is refused with a Mongoose error (400), and under 4.x the first tweet in the collection is rewritten. In no version is the edited tweet rewritten.
- UserController.ExistingUserIff: the `findOne` pre-check compares the username and email exactly as given. Whether Mongoose also trims query values depends on its version, which is not part of this model. A registration that differs from a stored user only by surrounding white space passes the pre-check, then breaks the unique index in `User.create` and fails with 500.
- CommentController.VideoComments: the model uses the evident comment model, the comment schema with the aggregate-paginate plugin. As written, `Comment.aggregatePaginate` (comment controller 83) is not a function: `mongoose-paginate-v2` adds `paginate`, and the model built from `{ commentSchema }` has no plugin at all. Every request with a well-formed video id then fails with a TypeError (500).
- CommentController.AddComment: as for `VideoComments`, the model answers with the comment page, while as written `Comment.aggregatePaginate` (comment controller 168) is a TypeError (500).
- VideoController.PublishDecision: the model stores the `{url, public_id}` blob objects the controllers write for `videoFile` and `thumbnail`. The schema types `thumbnail` as String, and Mongoose will not cast an object to a string, so as written `Videos.create` fails with a validation error (400).
- VideoController.PublishAVideo: as for `PublishDecision`, the model appends the new video, while as written `Videos.create` refuses the thumbnail object with a validation error (400).
- VideoController.UpdateDecision: the model writes the uploaded thumbnail object. As written, the `$set` of that object into the String path `thumbnail` fails with a cast error (400).
- VideoController.UpdateVideo: as for `UpdateDecision`, the model rewrites the video, while as written the `$set` fails with a cast error (400) and nothing is written.
- Paging.TotalPagesIsCeiling: the totals come from the `mongoose-aggregate-paginate-v2` plugin, whose code is not part of this model. The model assumes the plugin works as follows:
  - `totalPages` is `Math.ceil(totalItems / limit) || 1`;
  - `hasPrevPage` is `page > 1`;
  - `hasNextPage` is `page < totalPages`;
  - a page or limit that is not a positive number falls back to 1 or 10.
- Models.FindById: ids are compared as strings, and stored ids are lowercase 24-digit hexadecimal. Mongoose casts a requested id to an ObjectId first. So a stored id requested in uppercase hex, or in its 12-character form, is found in the source but not in the model.
- Sort ties: `SortBy` keeps collection order among records with equal keys. MongoDB's `$sort` does not fix the order of ties. Where keys are equal, the video listing, the comment list and the tweet list may therefore come in another order, and a page may hold different records.
- Logout does not clear the refresh token: under Mongoose 7 its update writes nothing. So the model has no lemma about a cleared token or a repeated logout. `UserController.LoggedOutUser` leaves the store unchanged, and a second logout does the same.
- VideoController.GetAllVideos: only `views`, `duration` and `createdAt` are sort keys, as for `ListingsOrderedAndComplete`. A page requested with `sortBy=title` or another non-numeric field follows collection order in the model, not the field's order.
- Registration's blob deletions on its error path are not modelled. Its 500 "Failed to upload" branches cannot fire, because an upload that fails returns null rather than throwing: the null avatar then fails inside `User.create`'s try block with the 500 "Something went wrong while registering a user and image deleted".
- UserController.RefreshTarget: the message of a refused token is abstracted to "invalid token" (jsonwebtoken's wording varies).
- UserController.LoggedInUser: the 403 error constructed but not thrown when neither email nor username is given is not modelled; the lookup then finds no one and the 404 follows.
- UserController.ChangeCurrentPassword: the current-password check is not awaited and always passes, so its 400 branch is not modelled.
- The `!updated…` and `!deleted…` branches after a successful write cannot fire in this model, so they are not modelled.
- A request that reaches a handler without an authenticated user (`req.user` null) is not modelled per handler.

## Findings

| source | as written | input that shows it | evidently intended | confidence | as-written member | corrected member |
|---|---|---|---|---|---|---|
| src/controllers/videos.controller.js:288 | `video.owner.toString() !== req.user && req.user._id.toString()` compares a string with the user object using `!==`, which always holds. The guard then fires for every user with a non-empty id. The same expression guards delete (348), toggle (387), the playlist handlers (215, 258, 298, 333) and the comment handlers. | The owner, with id "507f1f77bcf86cd799439011", updates their own video: refused with 403. | refuse exactly when `video.owner` differs from `req.user._id` | high, not executed | VideoController.OwnerIsRefusedAsWritten | VideoController.OwnerIsAdmitted |
