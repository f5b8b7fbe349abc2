# Authentication, profile, post and like bookkeeping of alertMe9Ja

This project models the POST handlers of `routes/auth.js`, the Express router of the
alertMe9Ja social-network backend, as operations on the user collection. The collection
is a class, `Auth.UserStore`, that holds a sequence of user documents in the natural order
that MongoDB's `findOne` scans. Each handler is one method. It finds one user by a key
(email, email or username, or the stored access token), checks a condition, changes
fields or embedded lists of that one document, and returns the handler's response: HTTP
code, `status`, `message` and payload, with the source's own strings.

- `types.dfy` (module `Types`): the user document with its embedded posts and
  notifications, ObjectIds, and uploaded media as an opaque pair of content type and bytes.
- `lookup.dfy` (module `Lookup`): `findOne` by email, by email or username, and by
  access token. It also models the `Authorization: Bearer <token>` parsing
  (`authHeader && authHeader.split(" ")[1]`) and the post lookup by the `post-id` header.
- `likes.dfy` (module `Likes`): the likers list: the `some` membership test, the
  unlike `filter`, and the toggle.
- `feed.dfy` (module `Feed`): the newsfeed selection. It is a stable sort by
  `createdAt`, newest first, then the first five posts. The sort is specified
  independently: it is the only newest-first order that keeps the posts of each
  creation time in the order they were added.
- `auth.dfy` (module `Auth`): the responses, the record-level helpers (new user,
  new post, like toggling with its notification) and the `UserStore` class with one
  method per handler. Its invariant `Valid()` says that emails and usernames are unique.

External collaborators become parameters of the methods:
- bcrypt's hash and compare: `hash`, `compare`.
- `jwt.sign` with its secret and clock: `sign`.
- moment's strict `DD/MM/YYYY` parse and its formatting: `parseDob`.
- The clock: `now`.
- The ObjectIds the database assigns: `newId`, `postId`.

The model follows the code, also where it behaves differently from what a reader of the
routes might expect:
- `/updateProfile` overwrites all five fields. A missing or empty `dob` is stored as null.
  The fields are not updated one by one only when supplied.
- `/uploadCoverPhoto` without a file fails with 500 "Internal server error.", because it
  reads the missing file. It does not answer with a 400. It does this after the token
  lookup and before any change.
- A successful like answers with status `"success"`, not `"liked"`.
- The like notification goes to the caller's own record. The caller is also the post's
  owner, because the post is searched only among the caller's own posts.
- `/addPost` answers with the object literal the post was built from. That literal has
  no `_id`: the id exists only on the subdocument that `user.posts.push` stores. This
  assumes Mongoose does not write the id back into the pushed literal.
- The handlers look a user up by the token as the query does, so a request without a
  token acts on the first user who holds none (see "## Findings"). The fail-closed lookup
  the routes evidently intend is `Lookup.FindBySessionToken`.
- `/toggleLikePost` compares each post's `_id` with the `post-id` header by `===`, which
  never holds (see "## Findings"). `Auth.UserStore.ToggleLikePost` takes the comparison as
  a parameter; `Auth.UserStore.ToggleLikePostAsWritten` is the handler as written, and the
  comparison the route evidently intends is `Lookup.IdStringMatch`.

## Model

| member | source | states |
|---|---|---|
| `Lookup.FindByEmail` | routes/auth.js:77 | finds the first user with the email; None exactly when no user has it |
| `Lookup.FindByEmailOrUsername` | routes/auth.js:25-27 | finds a user sharing the email or the username; None exactly when neither is taken |
| `Lookup.FindByToken` | routes/auth.js:367 | finds the first user whose stored token is the presented one, a missing token matching a user who holds none; None exactly when nobody holds it |
| `Lookup.MissingTokenFindsLoggedOutUser` | routes/auth.js:367 | a request without a token finds a user who holds no token, at or before any such user |
| `Lookup.FindBySessionToken` | routes/auth.js:367 | the intended session lookup: a missing token finds nobody, a presented token finds what the query finds |
| `Lookup.TokenResolvesToHolder` | routes/auth.js:89-99 | once login stores a token that no other user holds, that token resolves to the user who logged in |
| `Lookup.BearerToken` | routes/auth.js:430 | absent without a header; the empty header gives the empty string; otherwise present exactly when the header holds a space, and then it is the space-free field after the first space |
| `Lookup.BearerRoundTrip` | routes/auth.js:462 | the header `"Bearer " + t` gives back `t` for any space-free token |
| `Lookup.FindPostBy` | routes/auth.js:475 | finds the first post whose id matches the header under the given comparison; None exactly when no post's id matches |
| `Lookup.AsWrittenMatchesNothing` | routes/auth.js:475 | under strict equality no post's `_id` object equals the header, whatever the header and the references |
| `Lookup.FindPostAsWritten` | routes/auth.js:475 | the strict-equality post lookup as written finds no post for any header |
| `Lookup.AsWrittenMissesNamedPost` | routes/auth.js:475 | a header that names one of the caller's posts finds it under the intended comparison but not as written |
| `Lookup.FindPost` | routes/auth.js:475 | finds the first post whose id string equals the header; None exactly when the header is absent or names no post |
| `Likes.HasLiked` | routes/auth.js:481 | the caller has liked the post exactly when they occur among the likers at least once |
| `Likes.Without` | routes/auth.js:485 | removes every occurrence of the caller and keeps every other liker with its multiplicity |
| `Likes.Toggled` | routes/auth.js:481-490 | a like appends the caller, who then appears exactly once; an unlike leaves the caller absent; other likers keep their counts |
| `Likes.WithoutAbsent` | routes/auth.js:485 | filtering out an id that is not there leaves the likers unchanged |
| `Likes.ToggleTwiceRestores` | routes/auth.js:481-490 | two toggles starting from "not liked" restore the original likers |
| `Feed.Insert` | routes/auth.js:445 | inserting into a newest-first sequence keeps it newest first, adds exactly that post, and keeps the order of each creation time's posts |
| `Feed.SortNewestFirst` | routes/auth.js:444-445 | the sort result is newest first, a permutation of the posts, and keeps the posts of each creation time in insertion order |
| `Feed.StableOrderIsUnique` | routes/auth.js:444-445 | two newest-first permutations of each other that agree on every creation time's posts, in order, are equal |
| `Feed.SortIsStableOrder` | routes/auth.js:444-445 | any newest-first permutation of the posts that keeps each creation time's posts in insertion order is the sort's result |
| `Feed.Newsfeed` | routes/auth.js:444-446 | the feed is the start of the sorted posts, five long or all of them when there are fewer |
| `Feed.FeedSizeBound` | routes/auth.js:446 | the feed holds five posts, or all posts when there are fewer |
| `Feed.FeedOrderedFromPosts` | routes/auth.js:444-446 | the feed is newest first and is drawn from the user's posts |
| `Feed.FeedHoldsNewest` | routes/auth.js:444-446 | no post left out of the feed is newer than a post in it |
| `Feed.FeedKeepsTieOrder` | routes/auth.js:444-446 | the feed's posts of any one creation time are the earliest-added posts of that time, in insertion order |
| `Feed.NewestPostLeadsFeed` | routes/auth.js:408 | a post added after every existing post, with a later timestamp, is first in the feed |
| `Auth.MissingTokenReachesNewUser` | routes/auth.js:367 | with every other user logged in, a request without a token reaches the user who has just signed up, while the intended lookup finds nobody |
| `Auth.ToggleLike` | routes/auth.js:481-503 | an unlike removes the caller and keeps the notifications; a like adds the caller once and appends one "photo-liked" notification to the caller's own record; nothing else changes |
| `Auth.ToggleTwiceRestoresPosts` | routes/auth.js:481-503 | a like followed by an unlike restores the posts and leaves exactly the one notification of the like |
| `Auth.UserStore.Signup` | routes/auth.js:20-65 | a taken email or username gives "already exists" and no change; otherwise one user is appended with the hashed password, no token and empty lists; unique keys are preserved |
| `Auth.UserStore.Login` | routes/auth.js:74-117 | an unknown email or a failed comparison changes nothing and gives its message; success replaces that user's token with the newly signed one and returns it with the profile image |
| `Auth.UserStore.UpdateProfile` | routes/auth.js:167-216 | an unknown cookie gives "logged out" and a given dob that fails the strict check gives 400, both without change; otherwise the five fields are overwritten and dob becomes the formatted date or null |
| `Auth.UserStore.UploadCoverPhoto` | routes/auth.js:259-290 | an unknown token gives "logged out" and a missing file gives 500, both without change; otherwise only the cover photo of that user is replaced |
| `Auth.UserStore.UploadProfileImage` | routes/auth.js:294-329 | a missing file gives 400 before any lookup and an unknown token gives 404, both without change; otherwise only the profile image of that user is replaced |
| `Auth.Stored` | routes/auth.js:408 | the subdocument pushed from a post literal has the assigned id and gives back exactly that literal |
| `Auth.UserStore.AddPost` | routes/auth.js:362-422 | an unknown token gives 401 without change; otherwise the user's posts grow by exactly one new last post, with the assigned id, empty likers, comments and shares and the author's id, name and image; the response carries the literal without an id |
| `Auth.UserStore.GetNewsfeed` | routes/auth.js:429-458 | no token gives 401 "No access token provided" and an unknown token gives 401; otherwise at most five of the caller's posts, newest first; the store is not changed |
| `Auth.UserStore.ToggleLikePost` | routes/auth.js:460-508 | for any comparison of post ids with the header: an unknown token gives 401 and no matching post gives 404, both without change; otherwise the caller's record becomes `ToggleLike` of it and the status is "unliked" or "success" |
| `Auth.UserStore.ToggleLikePostAsWritten` | routes/auth.js:460-508 | with the `===` comparison as written, an unknown token gives 401, every other request gives 404 "Post not found.", and the store never changes |

## Left out

- bcrypt, `jwt.sign` and moment's strict date parser and formatter are function
  parameters. The model does not say which dates are valid or what a token contains.
- `/getUser` is left out. It only verifies a JSON Web Token (RFC 7519) and fetches the user by id.
- The GET routes (`/signup`, `/login`, `/updateProfile`, `/`) are left out. They render
  templates or redirect. `/logout` is left out too: it only redirects.
- Base64 encoding (section 4 of RFC 4648) and `data:` URIs (RFC 2397) are left out.
  Upload responses carry the stored media value instead of its data URI. Post
  images and videos are stored as the uploaded media, not as base64 strings.
- The 500 responses of the `catch` blocks for store failures are left out. Database
  faults are not modelled. The only 500 in the model is the cover photo upload without a file.
- `Lookup.FindByToken`: a request without a token (`undefined`) is looked up as a user
  who holds no token, as the driver sends an undefined filter value as `null` (see
  "## Findings"). The model does not capture driver options such as `ignoreUndefined`,
  or a schema default for the token field, that would change this.
- Missing text fields in a request body (name, city, …) are not modelled. Every
  text field is taken as a given string. Only these may be absent: `dob`, the uploaded
  files, the `accessToken` cookie, the `accessToken` body field, and the `authorization`
  and `post-id` headers.
- Races between concurrent requests are left out. Each handler finds the document,
  changes it and saves it without a version check, so two concurrent requests can lose
  an update. Handlers run one at a time here.
- The `Picture` slot stands for the empty string stored at signup or for an uploaded
  file. The schema of `models/User` is not part of this model.
- `Auth.UserStore.GetNewsfeed`: the handler sorts the loaded document's posts in place.
  That copy is never saved, so the model leaves the store unchanged and does not model
  the reordering of the in-memory copy.

## Findings

| source | as written | input that shows it | evidently intended | confidence | as-written member | corrected member |
|---|---|---|---|---|---|---|
| routes/auth.js:475 | the post is searched by comparing each post's `_id`, an ObjectId object, with the `post-id` header string using strict equality, which is never true between an object and a string, so `/toggleLikePost` always answers 404 "Post not found." | a logged-in user sends `post-id` equal to the id string of one of their own posts | compare the string form of the post id with the header | high, assuming posts get the default ObjectId `_id` (the schema in models/User is not part of this model); not executed | `Lookup.AsWrittenMissesNamedPost` | `Lookup.FindPost` |
| routes/auth.js:367 | `User.findOne({ accessToken })` with an absent token (no cookie at :168, no body field at :260, :295 and :363, no `authorization` header at :462) queries for a null token, which matches the first user who holds no token, so `/updateProfile`, `/uploadCoverPhoto`, `/uploadProfileImage`, `/addPost` and `/toggleLikePost` act on that user's record | a store where every user is logged in except one who has just signed up, and a request to `/addPost` without `accessToken` | a request without a token is treated as logged out and changes nothing | plausible, depending on Mongoose passing the undefined value on and the driver's default of serializing it as `null`, and on `models/User`, which is not part of this model; not executed | `Auth.MissingTokenReachesNewUser` | `Lookup.FindBySessionToken` |
