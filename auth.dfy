/** The POST handlers of routes/auth.js as operations on the user collection: each one
    finds a user document by a key, checks a condition, changes fields or embedded
    lists of that one document, and answers with a status. */
module Auth {
  import opened Types
  import opened Lookup
  import Likes
  import Feed

  /** What a response carries besides its status and message. */
  datatype Payload =
    | NoPayload
    | Session(accessToken: string, profileImage: Picture)
    | CreatedPost(post: PostFields)
    | Posts(posts: seq<Post>)
    | Image(media: Media)

  /** An HTTP response: status code, the `status` and `message` fields of the JSON body,
      and its payload. */
  datatype Response = Response(code: nat, status: string, message: string, payload: Payload)

  const SignupTaken := Response(200, "error", "Email or username already exists.", NoPayload)
  const SignupDone := Response(200, "success", "Signed up successfully, you can log in now.", NoPayload)
  const LoginUnknownEmail := Response(200, "error", "Email does not exist", NoPayload)
  const LoginWrongPassword := Response(200, "error", "Incorrect password", NoPayload)
  const ProfileLoggedOut := Response(200, "error", "User has been logged out. Please login again", NoPayload)
  const ProfileBadDob := Response(400, "error", "Invalid date format. Use DD/MM/YYYY.", NoPayload)
  const ProfileUpdated := Response(200, "success", "Profile has been updated", NoPayload)
  const CoverLoggedOut := Response(200, "error", "User has been logged out. Please login again.", NoPayload)
  const InternalError := Response(500, "error", "Internal server error.", NoPayload)
  const NoFileUploaded := Response(400, "error", "No file uploaded", NoPayload)
  const ImageUserNotFound := Response(404, "error", "User not found or logged out. Please log in again.", NoPayload)
  const Unauthenticated := Response(401, "error", "User not found or logged out. Please log in again.", NoPayload)
  const NoAccessToken := Response(401, "error", "No access token provided", NoPayload)
  const PostNotFound := Response(404, "error", "Post not found.", NoPayload)
  const PostUnliked := Response(200, "unliked", "Post unliked successfully.", NoPayload)
  const PostLiked := Response(200, "success", "Post liked successfully.", NoPayload)

  function LoginDone(token: string, image: Picture): Response
  {
    Response(200, "success", "Login successfully", Session(token, image))
  }

  function CoverUpdated(file: Media): Response
  {
    Response(200, "success", "Cover photo has been updated", Image(file))
  }

  function ProfileImageUpdated(file: Media): Response
  {
    Response(200, "success", "Profile image updated successfully", Image(file))
  }

  function PostAdded(post: PostFields): Response
  {
    Response(200, "success", "Post added successfully!", CreatedPost(post))
  }

  function FeedFetched(posts: seq<Post>): Response
  {
    Response(200, "success", "Record has been fetched", Posts(posts))
  }

  /** The fields of the signup form. */
  datatype SignupForm = SignupForm(
    name: string, username: string, email: string, password: string, gender: string,
    dob: string, city: string, country: string, aboutMe: string)

  /** No two users share an email, and no two share a username. */
  ghost predicate UniqueKeys(users: seq<User>)
  {
    forall i, j :: 0 <= i < j < |users| ==>
      users[i].email != users[j].email && users[i].username != users[j].username
  }

  /** Replacing a user by a record with the same email and username keeps the keys unique. */
  lemma ReplaceKeepsKeys(users: seq<User>, i: nat, v: User)
    requires UniqueKeys(users) && i < |users|
    requires v.email == users[i].email && v.username == users[i].username
    ensures UniqueKeys(users[i := v])
  {
  }

  /** The document signup creates: the hashed password, both pictures blank, no session
      and every list empty. */
  function NewUser(id: ObjectId, form: SignupForm, hashed: string): User
  {
    User(id, form.name, form.username, form.email, hashed, form.gender, Some(form.dob),
         form.city, form.country, form.aboutMe, Blank, Blank, None, [], [], [], [], [])
  }

  /** A request without a token reaches a user who has just signed up: with every other
      user logged in, `findOne({ accessToken })` for a missing token answers with the new
      user, whom the handlers then change. The intended session lookup finds nobody. */
  lemma MissingTokenReachesNewUser(users: seq<User>, id: ObjectId, form: SignupForm, hashed: string)
    requires forall j :: 0 <= j < |users| ==> users[j].accessToken.Some?
    ensures FindByToken(users + [NewUser(id, form, hashed)], None) == Some(|users|)
    ensures FindBySessionToken(users + [NewUser(id, form, hashed)], None) == None
  {
    var all := users + [NewUser(id, form, hashed)];
    MissingTokenFindsLoggedOutUser(all, |users|);
    assert forall j :: 0 <= j < |users| ==> all[j] == users[j];
  }

  /** True when the request carries a date of birth: `if (dob)` is false for a missing
      field and for the empty string. */
  predicate DobGiven(dob: Option<string>)
  {
    dob.Some? && dob.value != ""
  }

  /** The `newPost` object literal of `/addPost`: every field of a post but its `_id`,
      which exists only on the subdocument that `user.posts.push` builds from it. */
  datatype PostFields = PostFields(
    caption: string, kind: string, createdAt: int, image: Option<Media>, video: Option<Media>,
    likers: seq<ObjectId>, comments: seq<string>, shares: seq<string>, user: Author)

  /** A post without its id. */
  function Fields(p: Post): PostFields
  {
    PostFields(p.caption, p.kind, p.createdAt, p.image, p.video, p.likers, p.comments, p.shares, p.user)
  }

  /** The subdocument `push` stores: the literal's fields under the id the database
      assigns. It has that id and gives back exactly the literal. */
  function Stored(id: ObjectId, f: PostFields): (p: Post)
    ensures p.id == id && Fields(p) == f
  {
    Post(id, f.caption, f.kind, f.createdAt, f.image, f.video, f.likers, f.comments, f.shares, f.user)
  }

  /** The literal for a new post of user `u`, with no likers, comments or shares and a
      snapshot of the author as `u` is now. */
  function NewPost(u: User, caption: string, kind: string, createdAt: int,
                   image: Option<Media>, video: Option<Media>): PostFields
  {
    PostFields(caption, kind, createdAt, image, video, [], [], [], Author(u.id, u.name, u.profileImage))
  }

  /** The notification a like appends. */
  function LikeNotification(u: User, now: int): Notification
  {
    Notification("photo-liked", u.name + " has liked your post.", u.profileImage, now)
  }

  /** User `u` after toggling their own like on their post `j`. An unlike removes `u`
      from the likers and leaves the notifications alone; a like appends `u` to the
      likers exactly once and appends exactly one "photo-liked" notification to the
      list of `u` itself, the owner of the post. Nothing else changes. */
  function ToggleLike(u: User, j: nat, now: int): (v: User)
    requires j < |u.posts|
    ensures |v.posts| == |u.posts|
    ensures forall k :: 0 <= k < |u.posts| && k != j ==> v.posts[k] == u.posts[k]
    ensures v.posts[j] == u.posts[j].(likers := v.posts[j].likers)
    ensures v.posts[j].likers == Likes.Toggled(u.posts[j].likers, u.id)
    ensures v == u.(posts := v.posts, notifications := v.notifications)
    ensures Likes.HasLiked(u.posts[j].likers, u.id) ==>
      !Likes.HasLiked(v.posts[j].likers, u.id) && v.notifications == u.notifications
    ensures !Likes.HasLiked(u.posts[j].likers, u.id) ==>
      multiset(v.posts[j].likers)[u.id] == 1 &&
      v.notifications == u.notifications + [LikeNotification(u, now)] &&
      v.notifications[|u.notifications|].kind == "photo-liked"
  {
    var post := u.posts[j];
    if Likes.HasLiked(post.likers, u.id) then
      u.(posts := u.posts[j := post.(likers := Likes.Without(post.likers, u.id))])
    else
      u.(posts := u.posts[j := post.(likers := post.likers + [u.id])],
         notifications := u.notifications + [LikeNotification(u, now)])
  }

  /** Like then unlike: the posts are as before and exactly one notification remains. */
  lemma ToggleTwiceRestoresPosts(u: User, j: nat, t1: int, t2: int)
    requires j < |u.posts| && !Likes.HasLiked(u.posts[j].likers, u.id)
    ensures j < |ToggleLike(u, j, t1).posts|
    ensures var w := ToggleLike(ToggleLike(u, j, t1), j, t2);
      w.posts == u.posts && w.notifications == u.notifications + [LikeNotification(u, t1)]
  {
    var v := ToggleLike(u, j, t1);
    Likes.ToggleTwiceRestores(u.posts[j].likers, u.id);
    var w := ToggleLike(v, j, t2);
    assert w.posts[j] == u.posts[j];
    assert w.posts == u.posts;
  }

  /** The user collection, in the natural order in which `findOne` scans it. */
  class UserStore {
    var users: seq<User>

    ghost predicate Valid()
      reads this
    {
      UniqueKeys(users)
    }

    constructor ()
      ensures Valid() && users == []
    {
      users := [];
    }

    /** `POST /signup` (routes/auth.js:20-65): refuse a taken email or username, otherwise
        store a new user with the hashed password. `hash` stands for bcrypt with cost 10;
        `newId` is the id the database assigns. */
    method Signup(form: SignupForm, newId: ObjectId, hash: string -> string) returns (r: Response)
      requires Valid()
      modifies this
      ensures Valid()
      ensures EmailOrUsernameTaken(old(users), form.email, form.username) ==>
        r == SignupTaken && users == old(users)
      ensures !EmailOrUsernameTaken(old(users), form.email, form.username) ==>
        r == SignupDone && users == old(users) + [NewUser(newId, form, hash(form.password))]
      ensures !EmailOrUsernameTaken(old(users), form.email, form.username) ==>
        var u := users[|users| - 1];
        u.password == hash(form.password) && u.email == form.email && u.username == form.username &&
        u.accessToken.None? && u.friends == [] && u.pages == [] && u.groups == [] &&
        u.notifications == [] && u.posts == []
    {
      var existing := FindByEmailOrUsername(users, form.email, form.username);
      if existing.Some? {
        return SignupTaken;
      }
      users := users + [NewUser(newId, form, hash(form.password))];
      r := SignupDone;
    }

    /** `POST /login` (routes/auth.js:74-117): find the user by email, compare the password
        with the stored hash (`compare` stands for bcrypt's comparison), and on success store
        a freshly signed token (`sign` stands for signing `{ email, id }`) in place of any
        earlier one. */
    method Login(email: string, password: string, compare: (string, string) -> bool,
                 sign: (string, ObjectId) -> string) returns (r: Response)
      requires Valid()
      modifies this
      ensures Valid()
      ensures FindByEmail(old(users), email).None? ==> r == LoginUnknownEmail && users == old(users)
      ensures var found := FindByEmail(old(users), email);
        found.Some? && !compare(password, old(users)[found.value].password) ==>
        r == LoginWrongPassword && users == old(users)
      ensures var found := FindByEmail(old(users), email);
        found.Some? && compare(password, old(users)[found.value].password) ==>
        var i := found.value;
        var token := sign(email, old(users)[i].id);
        users == old(users)[i := old(users)[i].(accessToken := Some(token))] &&
        r == LoginDone(token, old(users)[i].profileImage)
    {
      var found := FindByEmail(users, email);
      if found.None? {
        return LoginUnknownEmail;
      }
      var i := found.value;
      if !compare(password, users[i].password) {
        return LoginWrongPassword;
      }
      var token := sign(email, users[i].id);
      ReplaceKeepsKeys(users, i, users[i].(accessToken := Some(token)));
      users := users[i := users[i].(accessToken := Some(token))];
      r := LoginDone(token, users[i].profileImage);
    }

    /** `POST /updateProfile` (routes/auth.js:167-216): the user holding the cookie token
        gets the five fields overwritten; a given dob must pass the strict DD/MM/YYYY check
        (`parseDob` stands for it and for the formatting that follows) and is stored
        formatted, a missing one is stored as null. */
    method UpdateProfile(cookie: Option<string>, name: string, dob: Option<string>, city: string,
                         country: string, aboutMe: string, parseDob: string -> Option<string>)
      returns (r: Response)
      requires Valid()
      modifies this
      ensures Valid()
      ensures FindByToken(old(users), cookie).None? ==> r == ProfileLoggedOut && users == old(users)
      ensures FindByToken(old(users), cookie).Some? && DobGiven(dob) && parseDob(dob.value).None? ==>
        r == ProfileBadDob && users == old(users)
      ensures var found := FindByToken(old(users), cookie);
        found.Some? && !(DobGiven(dob) && parseDob(dob.value).None?) ==>
        var i := found.value;
        var stored := if DobGiven(dob) then parseDob(dob.value) else None;
        r == ProfileUpdated &&
        users == old(users)[i := old(users)[i].(name := name, dob := stored, city := city,
                                                country := country, aboutMe := aboutMe)]
    {
      var found := FindByToken(users, cookie);
      if found.None? {
        return ProfileLoggedOut;
      }
      var i := found.value;
      var formatted: Option<string> := None;
      if DobGiven(dob) {
        formatted := parseDob(dob.value);
        if formatted.None? {
          return ProfileBadDob;
        }
      }
      users := users[i := users[i].(name := name, dob := formatted, city := city,
                                    country := country, aboutMe := aboutMe)];
      r := ProfileUpdated;
    }

    /** `POST /uploadCoverPhoto` (routes/auth.js:259-290): the token travels in the body.
        Without a file the handler dereferences the missing file and fails with an internal
        error, after the lookup and before any change. */
    method UploadCoverPhoto(token: Option<string>, file: Option<Media>) returns (r: Response)
      requires Valid()
      modifies this
      ensures Valid()
      ensures FindByToken(old(users), token).None? ==> r == CoverLoggedOut && users == old(users)
      ensures FindByToken(old(users), token).Some? && file.None? ==>
        r == InternalError && users == old(users)
      ensures var found := FindByToken(old(users), token);
        found.Some? && file.Some? ==>
        var i := found.value;
        r == CoverUpdated(file.value) &&
        users == old(users)[i := old(users)[i].(coverPhoto := Uploaded(file.value))]
    {
      var found := FindByToken(users, token);
      if found.None? {
        return CoverLoggedOut;
      }
      if file.None? {
        return InternalError;
      }
      var i := found.value;
      users := users[i := users[i].(coverPhoto := Uploaded(file.value))];
      r := CoverUpdated(file.value);
    }

    /** `POST /uploadProfileImage` (routes/auth.js:294-329): a missing file is refused before
        the token is looked at; an unknown token gives 404. */
    method UploadProfileImage(token: Option<string>, file: Option<Media>) returns (r: Response)
      requires Valid()
      modifies this
      ensures Valid()
      ensures file.None? ==> r == NoFileUploaded && users == old(users)
      ensures file.Some? && FindByToken(old(users), token).None? ==>
        r == ImageUserNotFound && users == old(users)
      ensures var found := FindByToken(old(users), token);
        found.Some? && file.Some? ==>
        var i := found.value;
        r == ProfileImageUpdated(file.value) &&
        users == old(users)[i := old(users)[i].(profileImage := Uploaded(file.value))]
    {
      if file.None? {
        return NoFileUploaded;
      }
      var found := FindByToken(users, token);
      if found.None? {
        return ImageUserNotFound;
      }
      var i := found.value;
      users := users[i := users[i].(profileImage := Uploaded(file.value))];
      r := ProfileImageUpdated(file.value);
    }

    /** `POST /addPost` (routes/auth.js:362-422): append a new post to the posts of the user
        holding the body token. `now` is the clock reading and `postId` the id the database
        assigns to the embedded post. The response carries the literal the post was built
        from, which has no id. */
    method AddPost(token: Option<string>, caption: string, kind: string, image: Option<Media>,
                   video: Option<Media>, now: int, postId: ObjectId) returns (r: Response)
      requires Valid()
      modifies this
      ensures Valid()
      ensures FindByToken(old(users), token).None? ==> r == Unauthenticated && users == old(users)
      ensures var found := FindByToken(old(users), token);
        found.Some? ==>
        var i := found.value;
        var u := old(users)[i];
        var literal := NewPost(u, caption, kind, now, image, video);
        users == old(users)[i := u.(posts := u.posts + [Stored(postId, literal)])] &&
        r == PostAdded(literal) &&
        |users[i].posts| == |u.posts| + 1 &&
        users[i].posts[|u.posts|].id == postId && Fields(users[i].posts[|u.posts|]) == literal &&
        literal.likers == [] && literal.comments == [] && literal.shares == [] &&
        literal.user == Author(u.id, u.name, u.profileImage) && literal.createdAt == now
    {
      var found := FindByToken(users, token);
      if found.None? {
        return Unauthenticated;
      }
      var i := found.value;
      var literal := NewPost(users[i], caption, kind, now, image, video);
      users := users[i := users[i].(posts := users[i].posts + [Stored(postId, literal)])];
      r := PostAdded(literal);
    }

    /** `POST /getNewsfeed` (routes/auth.js:429-458): the five newest posts of the user
        holding the bearer token. The handler sorts the loaded document's array but never
        saves it, so the store does not change. */
    method GetNewsfeed(authorization: Option<string>) returns (r: Response)
      ensures var token := BearerToken(authorization);
        (token.None? || token == Some("")) ==> r == NoAccessToken
      ensures var token := BearerToken(authorization);
        token.Some? && token != Some("") && FindByToken(users, token).None? ==> r == Unauthenticated
      ensures var token := BearerToken(authorization);
        var found := FindByToken(users, token);
        token.Some? && token != Some("") && found.Some? ==>
        r == FeedFetched(Feed.Newsfeed(users[found.value].posts))
      ensures r.payload.Posts? ==>
        |r.payload.posts| <= Feed.FeedSize && Feed.SortedNewestFirst(r.payload.posts) &&
        exists i :: 0 <= i < |users| && multiset(r.payload.posts) <= multiset(users[i].posts)
    {
      var token := BearerToken(authorization);
      if token.None? || token.value == "" {
        return NoAccessToken;
      }
      var found := FindByToken(users, token);
      if found.None? {
        return Unauthenticated;
      }
      var posts := users[found.value].posts;
      Feed.FeedSizeBound(posts);
      Feed.FeedOrderedFromPosts(posts);
      r := FeedFetched(Feed.Newsfeed(posts));
    }

    /** `POST /toggleLikePost` (routes/auth.js:460-508): the user holding the bearer token
        toggles their like on their own post named by the `post-id` header. How a post id is
        compared with the header is the parameter `idMatches`: the handler as written uses
        `Lookup.AsWrittenMatch` (see `ToggleLikePostAsWritten`), the evident intent is
        `Lookup.IdStringMatch`. */
    method ToggleLikePost(postIdHeader: Option<string>, authorization: Option<string>, now: int,
                          idMatches: (ObjectId, Option<string>) -> bool)
      returns (r: Response)
      requires Valid()
      modifies this
      ensures Valid()
      ensures FindByToken(old(users), BearerToken(authorization)).None? ==>
        r == Unauthenticated && users == old(users)
      ensures var found := FindByToken(old(users), BearerToken(authorization));
        found.Some? && FindPostBy(old(users)[found.value].posts, postIdHeader, idMatches).None? ==>
        r == PostNotFound && users == old(users)
      ensures var found := FindByToken(old(users), BearerToken(authorization));
        found.Some? && FindPostBy(old(users)[found.value].posts, postIdHeader, idMatches).Some? ==>
        var i := found.value;
        var u := old(users)[i];
        var j := FindPostBy(u.posts, postIdHeader, idMatches).value;
        users == old(users)[i := ToggleLike(u, j, now)] &&
        r == (if Likes.HasLiked(u.posts[j].likers, u.id) then PostUnliked else PostLiked)
    {
      var found := FindByToken(users, BearerToken(authorization));
      if found.None? {
        return Unauthenticated;
      }
      var i := found.value;
      var j := FindPostBy(users[i].posts, postIdHeader, idMatches);
      if j.None? {
        return PostNotFound;
      }
      var liked := Likes.HasLiked(users[i].posts[j.value].likers, users[i].id);
      ReplaceKeepsKeys(users, i, ToggleLike(users[i], j.value, now));
      users := users[i := ToggleLike(users[i], j.value, now)];
      r := if liked then PostUnliked else PostLiked;
    }

    /** `POST /toggleLikePost` exactly as written, comparing each post's `_id` object with
        the header string by `===` (`refOf` gives each ObjectId object its reference): a
        request with a known token always gets "Post not found.", and nothing changes. */
    method ToggleLikePostAsWritten(postIdHeader: Option<string>, authorization: Option<string>,
                                   now: int, refOf: ObjectId -> int)
      returns (r: Response)
      requires Valid()
      modifies this
      ensures Valid()
      ensures users == old(users)
      ensures FindByToken(old(users), BearerToken(authorization)).None? ==> r == Unauthenticated
      ensures FindByToken(old(users), BearerToken(authorization)).Some? ==> r == PostNotFound
    {
      var found := FindByToken(users, BearerToken(authorization));
      if found.Some? {
        AsWrittenMatchesNothing(users[found.value].posts, postIdHeader, refOf);
      }
      r := ToggleLikePost(postIdHeader, authorization, now, AsWrittenMatch(refOf));
    }
  }
}
