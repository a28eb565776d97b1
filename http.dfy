/**
 * The shapes the HTTP layer exchanges: JavaScript errors as the handlers
 * throw them, the JSON bodies they answer with, and Express's route tables.
 */
module Http {
  import opened Wrappers
  import opened Models

  /** A thrown JavaScript error; multer's `MulterError` also carries a `code`. */
  datatype Error =
    | MulterError(code: string, message: string)
    | PlainError(message: string)

  /** The claims a session token carries (`generateJWT`); signing and expiry are not modelled. */
  datatype Token = Token(id: ObjectId, firstname: string, email: string)

  /** A video document as JSON, with its `_id`. */
  datatype VideoView = VideoView(id: ObjectId, video: Video)

  /** A user document as JSON after `select('-password').populate('videos')`: there is no password path. */
  datatype UserView = UserView(
    id: ObjectId,
    firstname: string,
    lastname: string,
    email: string,
    mobile: string,
    bio: Option<string>,
    profilePicture: Option<string>,
    videos: seq<VideoView>,
    emailRegistered: bool)

  /** The JSON bodies the handlers send. */
  datatype Json =
    | Message(message: string)                                   // { message }
    | ErrorBody(error: string)                                   // { error }
    | LoginOk(message: string, token: Token)                     // { message, token }
    | OneUser(user: UserView)
    | ManyUsers(users: seq<UserView>)
    | Done(message: string)                                      // { message, success: true }
    | PictureDone(message: string, profilePictureUrl: string)    // { message, profilePictureUrl, success: true }
    | VideoDone(message: string, video: VideoView)               // { message, video, success: true }
  {
    /** The body carries `success: true`. */
    predicate Success()
    {
      Done? || PictureDone? || VideoDone?
    }
  }

  datatype Response = Response(status: nat, body: Json)

  datatype Verb = Get | Post | Put

  /** A one-segment Express path: `/all` or `/:userId`. */
  datatype Pattern = Exact(segment: string) | Param(name: string)

  datatype Route<H> = Route(verb: Verb, pattern: Pattern, protected: bool, handler: H)

  /** Express matches `/seg` literally and `/:name` against one non-empty segment. */
  predicate Matches(p: Pattern, path: string)
  {
    match p
    case Exact(seg) => path == "/" + seg
    case Param(_) => |path| >= 2 && path[0] == '/' && '/' !in path[1..]
  }

  predicate Handles<H>(r: Route<H>, verb: Verb, path: string)
  {
    r.verb == verb && Matches(r.pattern, path)
  }

  /**
   * Express tries the routes of a router in registration order and runs the
   * first that matches; `FirstRoute` gives its index from `from` on.
   */
  function FirstRoute<H>(table: seq<Route<H>>, verb: Verb, path: string, from: nat): (r: Option<nat>)
    requires from <= |table|
    decreases |table| - from
    ensures r.Some? ==> from <= r.value < |table| && Handles(table[r.value], verb, path)
    ensures r.Some? ==> forall j :: from <= j < r.value ==> !Handles(table[j], verb, path)
    ensures r.None? ==> forall j :: from <= j < |table| ==> !Handles(table[j], verb, path)
  {
    if from == |table| then None
    else if Handles(table[from], verb, path) then Some(from)
    else FirstRoute(table, verb, path, from + 1)
  }

  /** The route a request reaches, if any. */
  function Dispatch<H>(table: seq<Route<H>>, verb: Verb, path: string): Option<Route<H>>
  {
    match FirstRoute(table, verb, path, 0)
    case Some(i) => Some(table[i])
    case None => None
  }
}
