/**
 * The services the handlers talk to: the two MongoDB collections behind the
 * `User` and `Video` models, the S3 bucket (Backend/utils/s3.js) and the mail
 * sender (Backend/utils/sendEmail.js).
 *
 * The collections are maps from ObjectId to document.  Ids are drawn from one
 * increasing generator, so the natural order of a collection (the order
 * `find` and `findOne` return documents in) is increasing id order.  Every
 * externally visible side effect (an email sent, a document written, an
 * object stored) is appended to `log`, which is what the ordering facts of
 * the handlers are stated over.
 */
module Services {
  import opened Wrappers
  import opened Models
  import opened Storage
  import opened Http

  datatype Effect =
    | EmailSent(to: string, subject: string, text: string)
    | UserSaved(id: ObjectId, user: User)
    | VideoSaved(id: ObjectId, video: Video)
    | ObjectStored(params: UploadParams, location: string)

  /** The storage service's answer to one `s3.upload(params).promise()`. */
  datatype S3Reply = S3Ok(data: S3Data) | S3Failed(message: string)

  /** Why inserting a new document fails. */
  datatype SaveError = ValidationFailed(message: string) | DuplicateKey

  /** The message mongoose's `required` validator gives a path. */
  function RequiredMessage(path: string): string
  {
    "Path `" + path + "` is required."
  }

  /** A `ValidationError`'s message: the model name and each failing path with its own message. */
  function ValidationMessage(model: string, paths: seq<string>): string
  {
    model + " validation failed: " + JoinPaths(paths)
  }

  function JoinPaths(paths: seq<string>): string
  {
    if paths == [] then ""
    else if |paths| == 1 then paths[0] + ": " + RequiredMessage(paths[0])
    else paths[0] + ": " + RequiredMessage(paths[0]) + ", " + JoinPaths(paths[1..])
  }

  function When(b: bool, path: string): seq<string>
  {
    if b then [path] else []
  }

  /** The required paths of a user that are empty, in schema order. */
  function MissingUserPaths(u: User): (paths: seq<string>)
    ensures paths == [] <==> UserValid(u)
  {
    When(u.firstname == "", "firstname") + When(u.lastname == "", "lastname") +
    When(u.email == "", "email") + When(u.mobile == "", "mobile")
  }

  /** The required paths of a video that are empty, in schema order. */
  function MissingVideoPaths(v: Video): (paths: seq<string>)
    ensures paths == [] <==> VideoValid(v)
    ensures "title" in paths <==> v.title == ""
    ensures "description" in paths <==> v.description == ""
  {
    When(v.videoUrl == "", "videoUrl") + When(v.title == "", "title") +
    When(v.description == "", "description") + When(v.thumbnailUrl == "", "thumbnailUrl")
  }

  /**
   * `User.findOne({ firstname })`: the first user in natural order with that
   * first name, looked for among the ids in `[from, bound)`.
   */
  function FindOneByFirstname(users: map<ObjectId, User>, firstname: string, from: nat, bound: nat): (r: Option<ObjectId>)
    decreases bound - from
    ensures r.Some? ==> from <= r.value < bound && r.value in users && users[r.value].firstname == firstname
    ensures r.Some? ==> forall id :: from <= id < r.value && id in users ==> users[id].firstname != firstname
    ensures r.None? ==> forall id :: from <= id < bound && id in users ==> users[id].firstname != firstname
  {
    if from >= bound then None
    else if from in users && users[from].firstname == firstname then Some(from)
    else FindOneByFirstname(users, firstname, from + 1, bound)
  }

  class Backend {
    var users: map<ObjectId, User>
    var videos: map<ObjectId, Video>
    /** The ObjectId generator: every id handed out so far is below it. */
    var nextId: ObjectId
    var log: seq<Effect>
    /** The bucket name from the AWS configuration. */
    const bucket: string

    ghost predicate Valid()
      reads this
    {
      Consistent(users, videos, nextId)
    }

    constructor (bucket: string)
      ensures Valid()
      ensures users == map[] && videos == map[] && nextId == 0 && log == []
      ensures this.bucket == bucket
    {
      users := map[];
      videos := map[];
      nextId := 0;
      log := [];
      this.bucket := bucket;
    }

    /** The `_id` a `new User(...)` or `new Video(...)` receives: never used before. */
    method NewObjectId() returns (id: ObjectId)
      requires Valid()
      modifies this`nextId
      ensures Valid()
      ensures id == old(nextId) && nextId == id + 1
      ensures id !in users && id !in videos
    {
      id := nextId;
      nextId := nextId + 1;
    }

    /** `sendEmail(to, subject, text)`: delivery errors are caught inside, so it always returns. */
    method SendEmail(to: string, subject: string, text: string)
      modifies this`log
      ensures log == old(log) + [EmailSent(to, subject, text)]
    {
      log := log + [EmailSent(to, subject, text)];
    }

    /**
     * `uploadFile(file, Folder(kind))` at instant `timestamp`; the service's
     * answer is `reply`, which comes back unchanged whether it resolves or rejects.
     */
    method Upload(file: File, kind: Kind, timestamp: nat, reply: S3Reply) returns (result: S3Reply)
      modifies this`log
      ensures result == reply
      ensures reply.S3Ok? ==> log == old(log) + [ObjectStored(Params(bucket, file, kind, timestamp), reply.data.location)]
      ensures reply.S3Failed? ==> log == old(log)
    {
      var params := Params(bucket, file, kind, timestamp);
      if reply.S3Ok? {
        log := log + [ObjectStored(params, reply.data.location)];
      }
      result := reply;
    }

    /** `save()` of a new user: schema validation first, then the unique index on `email`. */
    method InsertUser(id: ObjectId, u: User) returns (err: Option<SaveError>)
      requires Valid()
      requires id < nextId && id !in users && u.videos == []
      modifies this`users, this`log
      ensures Valid()
      ensures !UserValid(u) ==> err == Some(ValidationFailed(ValidationMessage("User", MissingUserPaths(u))))
      ensures UserValid(u) && EmailTaken(old(users), u.email) ==> err == Some(DuplicateKey)
      ensures err.Some? ==> users == old(users) && log == old(log)
      ensures err.None? <==> UserValid(u) && !EmailTaken(old(users), u.email)
      ensures err.None? ==> users == old(users)[id := u] && log == old(log) + [UserSaved(id, u)]
    {
      if !UserValid(u) {
        err := Some(ValidationFailed(ValidationMessage("User", MissingUserPaths(u))));
      } else if EmailTaken(users, u.email) {
        err := Some(DuplicateKey);
      } else {
        InsertUserKeepsConsistent(users, videos, nextId, id, u);
        users := users[id := u];
        log := log + [UserSaved(id, u)];
        err := None;
      }
    }

    /** `save()` of a user already stored, with a new state the invariant allows. */
    method SaveUser(id: ObjectId, u: User)
      requires Valid() && id in users
      requires Consistent(users[id := u], videos, nextId)
      modifies this`users, this`log
      ensures Valid()
      ensures users == old(users)[id := u]
      ensures log == old(log) + [UserSaved(id, u)]
    {
      users := users[id := u];
      log := log + [UserSaved(id, u)];
    }

    /** `save()` of a new video; the only way it fails is schema validation. */
    method InsertVideo(id: ObjectId, v: Video) returns (err: Option<Error>)
      requires Valid()
      requires id < nextId && id !in videos
      modifies this`videos, this`log
      ensures Valid()
      ensures err.None? <==> VideoValid(v)
      ensures err.Some? ==> err.value == PlainError(ValidationMessage("Video", MissingVideoPaths(v)))
      ensures err.Some? ==> videos == old(videos) && log == old(log)
      ensures err.None? ==> videos == old(videos)[id := v] && log == old(log) + [VideoSaved(id, v)]
      ensures err.None? ==> !Owned(users, id)
    {
      if !VideoValid(v) {
        err := Some(PlainError(ValidationMessage("Video", MissingVideoPaths(v))));
      } else {
        InsertVideoKeepsConsistent(users, videos, nextId, id, v);
        videos := videos[id := v];
        log := log + [VideoSaved(id, v)];
        err := None;
      }
    }
  }
}
