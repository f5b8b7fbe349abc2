/** The records the authentication routes read and write: a user document with its
    embedded posts and notifications, as the routes build and save them. */
module Types {

  datatype Option<+T> = None | Some(value: T)

  /** A MongoDB ObjectId, known by the hexadecimal string its `toString()` returns. */
  datatype ObjectId = ObjectId(hex: string)

  /** An uploaded file as the upload middleware hands it over: its MIME type and its bytes. */
  datatype Media = Media(contentType: string, data: seq<bv8>)

  /** A profile image or cover photo slot: the empty string stored at signup, or an uploaded file. */
  datatype Picture = Blank | Uploaded(media: Media)

  /** The snapshot of the author that a post carries, taken when the post is created. */
  datatype Author = Author(id: ObjectId, name: string, profileImage: Picture)

  /** A post embedded in its author's user document. `comments` and `shares` are never
      filled by any route; their element type is left as strings. */
  datatype Post = Post(
    id: ObjectId,
    caption: string,
    kind: string,
    createdAt: int,
    image: Option<Media>,
    video: Option<Media>,
    likers: seq<ObjectId>,
    comments: seq<string>,
    shares: seq<string>,
    user: Author)

  /** An entry of a user's notification list. */
  datatype Notification = Notification(kind: string, content: string, profileImage: Picture, createdAt: int)

  /** A user document. `accessToken` is the single stored session token (absent until the first login). */
  datatype User = User(
    id: ObjectId,
    name: string,
    username: string,
    email: string,
    password: string,
    gender: string,
    dob: Option<string>,
    city: string,
    country: string,
    aboutMe: string,
    profileImage: Picture,
    coverPhoto: Picture,
    accessToken: Option<string>,
    friends: seq<ObjectId>,
    pages: seq<ObjectId>,
    groups: seq<ObjectId>,
    notifications: seq<Notification>,
    posts: seq<Post>)
}
