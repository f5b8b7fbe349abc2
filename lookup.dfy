/** The searches the routes make: MongoDB's `findOne` over the user collection (first
    match in natural order), `Array.prototype.find` over a user's posts, and the
    extraction of the token from an `Authorization: Bearer <token>` header. */
module Lookup {
  import opened Types

  /** Index of the first element of `s` that satisfies `p`, or None when none does. */
  function FirstIndex<T>(s: seq<T>, p: T -> bool): (r: Option<nat>)
    ensures r.Some? ==> r.value < |s| && p(s[r.value])
    ensures r.Some? ==> forall j :: 0 <= j < r.value ==> !p(s[j])
    ensures r.None? ==> forall j :: 0 <= j < |s| ==> !p(s[j])
  {
    if |s| == 0 then None
    else if p(s[0]) then Some(0)
    else match FirstIndex(s[1..], p)
      case None => None
      case Some(k) => Some(k + 1)
  }

  /** `User.findOne({ email })` (routes/auth.js:77). */
  function FindByEmail(users: seq<User>, email: string): (r: Option<nat>)
    ensures r.Some? ==> r.value < |users| && users[r.value].email == email
    ensures r.Some? ==> forall j :: 0 <= j < r.value ==> users[j].email != email
    ensures r.None? <==> forall j :: 0 <= j < |users| ==> users[j].email != email
  {
    FirstIndex(users, (u: User) => u.email == email)
  }

  /** True when some user already has this email or this username: the
      `$or` query at routes/auth.js:25-27 finds a document. */
  predicate EmailOrUsernameTaken(users: seq<User>, email: string, username: string)
  {
    exists j :: 0 <= j < |users| && (users[j].email == email || users[j].username == username)
  }

  /** `User.findOne({ $or: [{ email }, { username }] })` (routes/auth.js:25-27). */
  function FindByEmailOrUsername(users: seq<User>, email: string, username: string): (r: Option<nat>)
    ensures r.Some? ==> r.value < |users| && (users[r.value].email == email || users[r.value].username == username)
    ensures r.None? <==> !EmailOrUsernameTaken(users, email, username)
  {
    FirstIndex(users, (u: User) => u.email == email || u.username == username)
  }

  /** `User.findOne({ accessToken })` as written: the first user whose stored token is the
      one presented. A request without a token presents `undefined`, which reaches the
      store as `null` and so matches the first user who holds no token. */
  function FindByToken(users: seq<User>, token: Option<string>): (r: Option<nat>)
    ensures r.Some? ==> r.value < |users| && users[r.value].accessToken == token
    ensures r.Some? ==> forall j :: 0 <= j < r.value ==> users[j].accessToken != token
    ensures r.None? <==> forall j :: 0 <= j < |users| ==> users[j].accessToken != token
  {
    FirstIndex(users, (u: User) => u.accessToken == token)
  }

  /** A request without a token is answered with the first user who holds none, for
      instance one who signed up and has not logged in yet. */
  lemma MissingTokenFindsLoggedOutUser(users: seq<User>, i: nat)
    requires i < |users| && users[i].accessToken.None?
    ensures FindByToken(users, None).Some? && FindByToken(users, None).value <= i
    ensures users[FindByToken(users, None).value].accessToken.None?
  {
    assert users[i].accessToken == None;
  }

  /** The session lookup the routes evidently intend: a request without a token finds
      nobody, and a presented token finds the first user who holds it. */
  function FindBySessionToken(users: seq<User>, token: Option<string>): (r: Option<nat>)
    ensures token.None? ==> r.None?
    ensures r.Some? ==> token.Some? && r.value < |users| && users[r.value].accessToken == token
    ensures token.Some? ==> r == FindByToken(users, token)
  {
    if token.None? then None else FindByToken(users, token)
  }

  /** After a login stores `token` on user `i`, and no other user holds that token,
      the token resolves to user `i` (the cookie path of session resolution). */
  lemma TokenResolvesToHolder(users: seq<User>, i: nat, token: string)
    requires i < |users| && users[i].accessToken == Some(token)
    requires forall j :: 0 <= j < |users| && j != i ==> users[j].accessToken != Some(token)
    ensures FindByToken(users, Some(token)) == Some(i)
  {
    var r := FindByToken(users, Some(token));
    assert r.Some? by {
      assert users[i].accessToken == Some(token);
    }
  }

  // ---------------------------------------------------------------------------
  // The `Authorization` header: `authHeader && authHeader.split(" ")[1]`
  // (routes/auth.js:222, 430, 462).

  /** Number of leading characters of `s` that are not a space. */
  function UpToSpace(s: string): (n: nat)
    ensures n <= |s|
    ensures forall k :: 0 <= k < n ==> s[k] != ' '
    ensures n < |s| ==> s[n] == ' '
  {
    match FirstIndex(s, (c: char) => c == ' ')
      case None => |s|
      case Some(k) => k
  }

  /** The token carried by an `Authorization` header: absent when there is no header;
      the empty string itself when the header is empty (`"" && …` is `""`); otherwise
      the second field of the header split on single spaces, absent when the header
      holds no space. */
  function BearerToken(header: Option<string>): (r: Option<string>)
    ensures header.None? ==> r.None?
    ensures header == Some("") ==> r == Some("")
    ensures header.Some? && header.value != "" ==>
      (r.Some? <==> ' ' in header.value)
    ensures header.Some? && header.value != "" && r.Some? ==>
      var s := header.value;
      var i := UpToSpace(s);
      i + 1 + |r.value| <= |s| && r.value == s[i + 1..i + 1 + |r.value|] && ' ' !in r.value &&
      (i + 1 + |r.value| == |s| || s[i + 1 + |r.value|] == ' ')
  {
    match header
      case None => None
      case Some(s) =>
        if s == "" then Some("")
        else
          var i := UpToSpace(s);
          if i == |s| then None
          else
            var rest := s[i + 1..];
            Some(rest[..UpToSpace(rest)])
  }

  /** A header built the way clients build it, `"Bearer " + token`, gives back the token
      when the token holds no space. */
  lemma BearerRoundTrip(token: string)
    requires ' ' !in token
    ensures BearerToken(Some("Bearer " + token)) == Some(token)
  {
    var s := "Bearer " + token;
    assert s[6] == ' ';
    assert forall k :: 0 <= k < 6 ==> s[k] != ' ';
    assert UpToSpace(s) == 6;
    var rest := s[7..];
    assert rest == token;
    assert UpToSpace(rest) == |rest|;
    assert rest[..UpToSpace(rest)] == token;
    assert s != "" && UpToSpace(s) != |s|;
  }

  // ---------------------------------------------------------------------------
  // Finding a post by the `post-id` header (routes/auth.js:461, 475).

  /** A JavaScript value as the strict equality `===` sees it: `undefined`, a string,
      or an object known by its reference. */
  datatype JsValue = JsUndefined | JsString(s: string) | JsObject(ref: int)

  /** JavaScript's `===`: values of different types are never equal, strings compare by
      content, objects by reference. */
  function StrictEquals(a: JsValue, b: JsValue): (r: bool)
    ensures r ==> a == b
    ensures a.JsObject? != b.JsObject? ==> !r
  {
    match (a, b)
      case (JsUndefined, JsUndefined) => true
      case (JsString(x), JsString(y)) => x == y
      case (JsObject(x), JsObject(y)) => x == y
      case _ => false
  }

  /** The `post-id` header as a JavaScript value: a string, or `undefined` when absent. */
  function HeaderValue(header: Option<string>): (v: JsValue)
    ensures !v.JsObject?
  {
    match header
      case None => JsUndefined
      case Some(s) => JsString(s)
  }

  /** `user.posts.find(p => <p._id compared with id>)`: the first post whose id `matches`
      the `post-id` header. The comparison is left open so that the handler can be stated
      both as written and as intended. */
  function FindPostBy(posts: seq<Post>, header: Option<string>,
                      matches: (ObjectId, Option<string>) -> bool): (r: Option<nat>)
    ensures r.Some? ==> r.value < |posts| && matches(posts[r.value].id, header)
    ensures r.Some? ==> forall j :: 0 <= j < r.value ==> !matches(posts[j].id, header)
    ensures r.None? <==> forall j :: 0 <= j < |posts| ==> !matches(posts[j].id, header)
  {
    FirstIndex(posts, (p: Post) => matches(p.id, header))
  }

  /** `p._id === id` AS WRITTEN: `p._id` is an ObjectId object, here the object at
      reference `refOf(p._id)`, and `id` is the header string, or `undefined` when absent.
      Which reference each ObjectId object has is not known, so it is a parameter. */
  function AsWrittenMatch(refOf: ObjectId -> int): (ObjectId, Option<string>) -> bool
  {
    (oid: ObjectId, header: Option<string>) => StrictEquals(JsObject(refOf(oid)), HeaderValue(header))
  }

  /** `p._id.toString() === id`: the comparison the route evidently intends. */
  predicate IdStringMatch(oid: ObjectId, header: Option<string>)
  {
    header.Some? && StrictEquals(JsString(oid.hex), JsString(header.value))
  }

  /** `user.posts.find(p => p._id === id)` (routes/auth.js:475) AS WRITTEN. Strict
      equality between an object and a string or `undefined` is false, so no post is
      found, whatever the header and whatever the references. */
  function FindPostAsWritten(posts: seq<Post>, header: Option<string>, refOf: ObjectId -> int): (r: Option<nat>)
    ensures r == None
  {
    AsWrittenMatchesNothing(posts, header, refOf);
    FindPostBy(posts, header, AsWrittenMatch(refOf))
  }

  /** No post's id is `===` to the header. */
  lemma AsWrittenMatchesNothing(posts: seq<Post>, header: Option<string>, refOf: ObjectId -> int)
    ensures forall j :: 0 <= j < |posts| ==> !AsWrittenMatch(refOf)(posts[j].id, header)
  {
    forall j | 0 <= j < |posts| ensures !AsWrittenMatch(refOf)(posts[j].id, header) {
      assert !StrictEquals(JsObject(refOf(posts[j].id)), HeaderValue(header));
    }
  }

  /** The lookup the route evidently intends: the first post whose id string is the
      header, absent when the header is absent. */
  function FindPost(posts: seq<Post>, header: Option<string>): (r: Option<nat>)
    ensures r.Some? ==> header.Some? && r.value < |posts| && posts[r.value].id.hex == header.value
    ensures r.Some? ==> forall j :: 0 <= j < r.value ==> posts[j].id.hex != header.value
    ensures r.None? <==> header.None? || forall j :: 0 <= j < |posts| ==> posts[j].id.hex != header.value
  {
    FindPostBy(posts, header, IdStringMatch)
  }

  /** The discrepancy on a concrete request: a `post-id` header naming the user's post
      `k` finds that post (or an earlier one with the same id) under the intended
      comparison, and no post as written. */
  lemma AsWrittenMissesNamedPost(posts: seq<Post>, k: nat, refOf: ObjectId -> int)
    requires k < |posts|
    ensures FindPost(posts, Some(posts[k].id.hex)).Some?
    ensures FindPost(posts, Some(posts[k].id.hex)).value <= k
    ensures FindPostAsWritten(posts, Some(posts[k].id.hex), refOf) == None
  {
    assert IdStringMatch(posts[k].id, Some(posts[k].id.hex));
  }
}
