/**
 * Backend/routes/uploadRoutes.js: the upload admission policies (multer's
 * file filter and size ceiling), the `/profile-picture` and `/video`
 * handlers, and the router's error-handling middleware.
 *
 * A request's files are `Option<File>`s: multer has already parsed the
 * multipart body.  What multer itself enforces is modelled by its outcome
 * only (`Admit`): the file filter's error, or a `MulterError` whose code is
 * `LIMIT_FILE_SIZE`.  Every error a handler throws or passes to `next` is
 * answered by `HandleError`.
 */
module UploadRoutes {
  import opened Wrappers
  import opened Models
  import opened Http
  import opened Storage
  import opened Services
  import UserController

  const InvalidFileType := "Invalid file type"
  const LimitFileSize := "LIMIT_FILE_SIZE"
  /** The message multer gives its `LIMIT_FILE_SIZE` error; the handler never shows it. */
  const FileTooLarge := "File too large"
  const SizeLimitAnswer := "File size should be less than or equal to the limit."
  const TypeAnswer := "Invalid file type. Only allowed types are specified."
  const PictureUpdated := "Profile picture updated successfully"
  const VideoUploaded := "Video uploaded successfully"
  const BothFilesRequired := "Both video and thumbnail files are required."
  const OwnerNotFound := "User not found."
  /** The `TypeError` a property read on `undefined` raises: the file's name, or a field's first entry. */
  const NoFileToUpload := "Cannot read properties of undefined (reading 'originalname')"
  const NoFieldToIndex := "Cannot read properties of undefined (reading '0')"

  const MiB: nat := 1024 * 1024

  /** A multer instance's file filter allow-list and `limits.fileSize`. */
  datatype Policy = Policy(allowedTypes: seq<string>, fileSize: nat)

  /** `uploadProfilePic`. */
  const ProfilePicturePolicy := Policy(["image/png", "image/jpg", "image/jpeg"], 3 * MiB)

  /** `uploadFiles`: one allow-list and one ceiling for both the video and the thumbnail field. */
  const MediaPolicy := Policy(["video/mp4", "image/png", "image/jpg", "image/jpeg"], 6 * MiB)

  /** `fileFilter(allowedTypes)` applied to one file. */
  function FileFilter(allowedTypes: seq<string>, file: File): (r: Option<Error>)
    ensures r.None? <==> file.mimetype in allowedTypes
    ensures r.Some? ==> r.value == PlainError(InvalidFileType)
  {
    if file.mimetype in allowedTypes then None else Some(PlainError(InvalidFileType))
  }

  /**
   * Whether multer lets a file through: the filter runs when the part
   * starts, the size ceiling while it streams.  A file of exactly the
   * ceiling passes.
   */
  function Admit(policy: Policy, file: File): (r: Option<Error>)
    ensures r.None? <==> file.mimetype in policy.allowedTypes && |file.buffer| <= policy.fileSize
    ensures file.mimetype !in policy.allowedTypes ==> r == Some(PlainError(InvalidFileType))
    ensures file.mimetype in policy.allowedTypes && |file.buffer| > policy.fileSize ==>
      r == Some(MulterError(LimitFileSize, FileTooLarge))
  {
    match FileFilter(policy.allowedTypes, file)
    case Some(err) => Some(err)
    case None =>
      if |file.buffer| > policy.fileSize then Some(MulterError(LimitFileSize, FileTooLarge)) else None
  }

  /** The video route's files, in the order the page appends them: video first, then thumbnail. */
  function AdmitFiles(policy: Policy, video: Option<File>, thumbnail: Option<File>): (r: Option<Error>)
    ensures r.None? <==>
      (video.Some? ==> Admit(policy, video.value).None?) && (thumbnail.Some? ==> Admit(policy, thumbnail.value).None?)
    ensures video.Some? && Admit(policy, video.value).Some? ==> r == Admit(policy, video.value)
    ensures (video.None? || Admit(policy, video.value).None?) && thumbnail.Some? ==> r == Admit(policy, thumbnail.value)
  {
    if video.Some? && Admit(policy, video.value).Some? then Admit(policy, video.value)
    else if thumbnail.Some? then Admit(policy, thumbnail.value)
    else None
  }

  /** The router's error-handling middleware. */
  function HandleError(err: Error): (r: Response)
    ensures r.status == 400 || r.status == 500
    ensures r.status == 400 <==>
      (err.MulterError? && err.code == LimitFileSize) || (err.PlainError? && err.message == InvalidFileType)
    ensures r.status == 400 ==> r.body == ErrorBody(if err.MulterError? then SizeLimitAnswer else TypeAnswer)
    ensures r.status == 500 ==> r.body == ErrorBody(err.message)
  {
    match err
    case MulterError(code, message) =>
      if code == LimitFileSize then Response(400, ErrorBody(SizeLimitAnswer)) else Response(500, ErrorBody(message))
    case PlainError(message) =>
      if message == InvalidFileType then Response(400, ErrorBody(TypeAnswer)) else Response(500, ErrorBody(message))
  }

  /** Every file multer turns away is answered 400, never 500. */
  lemma RejectedUploadsAnswer400(policy: Policy, file: File)
    requires Admit(policy, file).Some?
    ensures HandleError(Admit(policy, file).value).status == 400
  {
  }

  /** A multer error with any other code answers 500 with its own message, even if that message reads 'Invalid file type'. */
  lemma OtherMulterErrorsAnswer500(code: string, message: string)
    requires code != LimitFileSize
    ensures HandleError(MulterError(code, message)) == Response(500, ErrorBody(message))
  {
  }

  /** Every picture type is also a media type, the media ceiling is twice the picture one, and only media may be mp4. */
  lemma PoliciesNest(mimetype: string)
    ensures mimetype in ProfilePicturePolicy.allowedTypes ==> mimetype in MediaPolicy.allowedTypes
    ensures ProfilePicturePolicy.fileSize == 3 * MiB && MediaPolicy.fileSize == 2 * ProfilePicturePolicy.fileSize
    ensures "video/mp4" in MediaPolicy.allowedTypes && "video/mp4" !in ProfilePicturePolicy.allowedTypes
  {
  }

  /**
   * Lines 56-61 as written: `req.files.video[0]` reads index 0 of
   * `undefined` when the field is missing, which throws a `TypeError` before
   * the guard is reached; multer never gives a field an empty list, so the
   * guard's own error is never thrown.
   */
  function SelectFilesAsWritten(video: Option<File>, thumbnail: Option<File>): (r: Result<(File, File), Error>)
    ensures r.Failure? <==> video.None? || thumbnail.None?
    ensures r.Failure? ==> r.error == PlainError(NoFieldToIndex)
    ensures r.Ok? ==> r.value == (video.value, thumbnail.value)
  {
    if video.None? || thumbnail.None? then Failure(PlainError(NoFieldToIndex))
    else Ok((video.value, thumbnail.value))
  }

  /** The guard's message can never be the answer: a missing file shows a `TypeError` message instead. */
  lemma MissingFileGuardUnreachable(video: Option<File>, thumbnail: Option<File>, f: File)
    ensures SelectFilesAsWritten(video, thumbnail) != Failure(PlainError(BothFilesRequired))
    ensures HandleError(SelectFilesAsWritten(Some(f), None).error) == Response(500, ErrorBody(NoFieldToIndex))
  {
  }

  /** The evident intent of lines 56-61: both files are required, and a missing one is reported as such. */
  function RequiredFiles(video: Option<File>, thumbnail: Option<File>): (r: Result<(File, File), Error>)
    ensures r.Failure? <==> video.None? || thumbnail.None?
    ensures r.Failure? ==> r.error == PlainError(BothFilesRequired)
    ensures r.Ok? ==> r.value == (video.value, thumbnail.value)
  {
    if video.None? || thumbnail.None? then Failure(PlainError(BothFilesRequired))
    else Ok((video.value, thumbnail.value))
  }

  /** Both readings refuse the same requests; only the message differs. */
  lemma CorrectionKeepsOutcome(video: Option<File>, thumbnail: Option<File>)
    ensures SelectFilesAsWritten(video, thumbnail).Failure? <==> RequiredFiles(video, thumbnail).Failure?
    ensures SelectFilesAsWritten(video, thumbnail).Ok? ==> SelectFilesAsWritten(video, thumbnail) == RequiredFiles(video, thumbnail)
    ensures RequiredFiles(video, thumbnail).Failure? ==> HandleError(RequiredFiles(video, thumbnail).error).status == 500
  {
  }

  /**
   * `POST /profile-picture` behind `protect` and `uploadProfilePic.single('file')`:
   * the file is uploaded first, then the user is looked up; a missing user
   * leaves the stored object behind and answers 404.
   */
  method UploadProfilePicture(db: Backend, userId: ObjectId, file: Option<File>, timestamp: nat, reply: S3Reply)
    returns (res: Response)
    requires db.Valid()
    modifies db
    ensures db.Valid() && db.videos == old(db.videos) && db.nextId == old(db.nextId)
    ensures file.Some? && Admit(ProfilePicturePolicy, file.value).Some? ==>
      && res == HandleError(Admit(ProfilePicturePolicy, file.value).value)
      && db.users == old(db.users) && db.log == old(db.log)
    ensures file.None? ==>
      res == Response(500, ErrorBody(NoFileToUpload)) && db.users == old(db.users) && db.log == old(db.log)
    ensures file.Some? && Admit(ProfilePicturePolicy, file.value).None? && reply.S3Failed? ==>
      res == HandleError(PlainError(reply.message)) && db.users == old(db.users) && db.log == old(db.log)
    ensures file.Some? && Admit(ProfilePicturePolicy, file.value).None? && reply.S3Ok? ==>
      var location := reply.data.location;
      var stored := ObjectStored(Params(db.bucket, file.value, ProfilePicture, timestamp), location);
      && (userId !in old(db.users) ==>
            && res == Response(404, Message(UserController.UserNotFound))
            && db.users == old(db.users) && db.log == old(db.log) + [stored])
      && (userId in old(db.users) ==>
            var u := old(db.users)[userId].(profilePicture := Some(location));
            && res == Response(200, PictureDone(PictureUpdated, location))
            && db.users == old(db.users)[userId := u]
            && db.log == old(db.log) + [stored] + [UserSaved(userId, u)])
  {
    if file.Some? && Admit(ProfilePicturePolicy, file.value).Some? {
      return HandleError(Admit(ProfilePicturePolicy, file.value).value);
    }
    if file.None? {
      return HandleError(PlainError(NoFileToUpload));
    }
    var result := db.Upload(file.value, ProfilePicture, timestamp, reply);
    if result.S3Failed? {
      return HandleError(PlainError(result.message));
    }
    if userId !in db.users {
      return Response(404, Message(UserController.UserNotFound));
    }
    var updated := db.users[userId].(profilePicture := Some(result.data.location));
    UpdateUserKeepsConsistent(db.users, db.videos, db.nextId, userId, updated);
    db.SaveUser(userId, updated);
    res := Response(200, PictureDone(PictureUpdated, result.data.location));
  }

  datatype VideoForm = VideoForm(title: string, description: string)

  /** The `Location` of a successful upload; the contracts below only use it for successful ones. */
  function LocationOf(reply: S3Reply): string
  {
    if reply.S3Ok? then reply.data.location else ""
  }

  /** The video document the handler builds from the two upload locations and the form. */
  function NewVideo(videoLocation: string, thumbnailLocation: string, form: VideoForm): Video
  {
    Video(videoLocation, form.title, form.description, thumbnailLocation)
  }

  /**
   * `POST /video` behind `protect` and `uploadFiles.fields(...)`: upload the
   * video, then the thumbnail, save the new Video, and only then look the
   * owner up and append the video's id to its list.  A missing file is
   * handled as the code does it (`SelectFilesAsWritten`).
   */
  method UploadVideo(db: Backend, userId: ObjectId, form: VideoForm, video: Option<File>, thumbnail: Option<File>,
                     videoTime: nat, thumbnailTime: nat, videoReply: S3Reply, thumbnailReply: S3Reply)
    returns (res: Response)
    requires db.Valid()
    modifies db
    ensures db.Valid()
    ensures AdmitFiles(MediaPolicy, video, thumbnail).Some? ==>
      && res == HandleError(AdmitFiles(MediaPolicy, video, thumbnail).value)
      && db.users == old(db.users) && db.videos == old(db.videos) && db.nextId == old(db.nextId) && db.log == old(db.log)
    ensures AdmitFiles(MediaPolicy, video, thumbnail).None? && (video.None? || thumbnail.None?) ==>
      && res == Response(500, ErrorBody(NoFieldToIndex))
      && db.users == old(db.users) && db.videos == old(db.videos) && db.nextId == old(db.nextId) && db.log == old(db.log)
    ensures AdmitFiles(MediaPolicy, video, thumbnail).None? && video.Some? && thumbnail.Some? ==>
      StoredAndSaved(old(db.users), old(db.videos), old(db.nextId), old(db.log), db.users, db.videos, db.nextId, db.log, res,
        db.bucket, userId, form, video.value, thumbnail.value, videoTime, thumbnailTime, videoReply, thumbnailReply)
  {
    var rejected := AdmitFiles(MediaPolicy, video, thumbnail);
    if rejected.Some? {
      return HandleError(rejected.value);
    }
    var files := SelectFilesAsWritten(video, thumbnail);
    if files.Failure? {
      return HandleError(files.error);
    }
    var (videoFile, thumbnailFile) := files.value;
    res := StoreAndSave(db, userId, form, videoFile, thumbnailFile, videoTime, thumbnailTime, videoReply, thumbnailReply);
  }

  /**
   * The outcome of lines 63-88 of the video route, from the store before
   * (`users`, `videos`, `nextId`, `log`) to the store after (`users'`, ...):
   * the video is stored, then the thumbnail, then the document is saved and
   * linked to its owner; the first failure answers and ends the request.
   */
  ghost predicate StoredAndSaved(
    users: map<ObjectId, User>, videos: map<ObjectId, Video>, nextId: ObjectId, log: seq<Effect>,
    users': map<ObjectId, User>, videos': map<ObjectId, Video>, nextId': ObjectId, log': seq<Effect>, res: Response,
    bucket: string, userId: ObjectId, form: VideoForm, videoFile: File, thumbnailFile: File,
    videoTime: nat, thumbnailTime: nat, videoReply: S3Reply, thumbnailReply: S3Reply)
  {
    var storedVideo := ObjectStored(Params(bucket, videoFile, VideoAsset, videoTime), LocationOf(videoReply));
    var storedThumbnail := ObjectStored(Params(bucket, thumbnailFile, Thumbnail, thumbnailTime), LocationOf(thumbnailReply));
    var v := NewVideo(LocationOf(videoReply), LocationOf(thumbnailReply), form);
    && (videoReply.S3Failed? ==>
          && res == HandleError(PlainError(videoReply.message))
          && users' == users && videos' == videos && nextId' == nextId && log' == log)
    && (videoReply.S3Ok? && thumbnailReply.S3Failed? ==>
          && res == HandleError(PlainError(thumbnailReply.message))
          && users' == users && videos' == videos && nextId' == nextId && log' == log + [storedVideo])
    && (videoReply.S3Ok? && thumbnailReply.S3Ok? && !VideoValid(v) ==>
          && res == Response(500, ErrorBody(ValidationMessage("Video", MissingVideoPaths(v))))
          && users' == users && videos' == videos && nextId' == nextId + 1
          && log' == log + [storedVideo] + [storedThumbnail])
    && (videoReply.S3Ok? && thumbnailReply.S3Ok? && VideoValid(v) && userId !in users ==>
          && res == Response(500, ErrorBody(OwnerNotFound))
          && users' == users && videos' == videos[nextId := v] && nextId' == nextId + 1
          && log' == log + [storedVideo] + [storedThumbnail] + [VideoSaved(nextId, v)]
          && !Owned(users', nextId))
    && (videoReply.S3Ok? && thumbnailReply.S3Ok? && VideoValid(v) && userId in users ==>
          var u := users[userId].(videos := users[userId].videos + [nextId]);
          && res == Response(201, VideoDone(VideoUploaded, VideoView(nextId, v)))
          && users' == users[userId := u] && videos' == videos[nextId := v] && nextId' == nextId + 1
          && log' == log + [storedVideo] + [storedThumbnail] + [VideoSaved(nextId, v)] + [UserSaved(userId, u)])
  }

  /** Lines 63-88 of the video route: store both files, then save and link the video. */
  method StoreAndSave(db: Backend, userId: ObjectId, form: VideoForm, videoFile: File, thumbnailFile: File,
                      videoTime: nat, thumbnailTime: nat, videoReply: S3Reply, thumbnailReply: S3Reply)
    returns (res: Response)
    requires db.Valid()
    modifies db
    ensures db.Valid()
    ensures StoredAndSaved(old(db.users), old(db.videos), old(db.nextId), old(db.log), db.users, db.videos, db.nextId, db.log, res,
      db.bucket, userId, form, videoFile, thumbnailFile, videoTime, thumbnailTime, videoReply, thumbnailReply)
  {
    var videoResult := db.Upload(videoFile, VideoAsset, videoTime, videoReply);
    if videoResult.S3Failed? {
      return HandleError(PlainError(videoResult.message));
    }
    var thumbnailResult := db.Upload(thumbnailFile, Thumbnail, thumbnailTime, thumbnailReply);
    if thumbnailResult.S3Failed? {
      return HandleError(PlainError(thumbnailResult.message));
    }
    res := SaveAndLink(db, userId, NewVideo(videoResult.data.location, thumbnailResult.data.location, form));
  }

  /** Lines 66-84 of the video route: save the new Video, then append its id to the owner's list. */
  method SaveAndLink(db: Backend, userId: ObjectId, v: Video) returns (res: Response)
    requires db.Valid()
    modifies db
    ensures db.Valid()
    ensures var id := old(db.nextId);
      && db.nextId == id + 1
      && (!VideoValid(v) ==>
            && res == Response(500, ErrorBody(ValidationMessage("Video", MissingVideoPaths(v))))
            && db.users == old(db.users) && db.videos == old(db.videos) && db.log == old(db.log))
      && (VideoValid(v) && userId !in old(db.users) ==>
            && res == Response(500, ErrorBody(OwnerNotFound))
            && db.users == old(db.users) && db.videos == old(db.videos)[id := v]
            && db.log == old(db.log) + [VideoSaved(id, v)]
            && !Owned(db.users, id))
      && (VideoValid(v) && userId in old(db.users) ==>
            var u := old(db.users)[userId].(videos := old(db.users)[userId].videos + [id]);
            && res == Response(201, VideoDone(VideoUploaded, VideoView(id, v)))
            && db.users == old(db.users)[userId := u] && db.videos == old(db.videos)[id := v]
            && db.log == old(db.log) + [VideoSaved(id, v)] + [UserSaved(userId, u)])
  {
    var id := db.NewObjectId();
    var err := db.InsertVideo(id, v);
    if err.Some? {
      return HandleError(err.value);
    }
    if userId !in db.users {
      return HandleError(PlainError(OwnerNotFound));
    }
    var owner := db.users[userId];
    AppendVideoKeepsConsistent(db.users, db.videos, db.nextId, userId, id);
    db.SaveUser(userId, owner.(videos := owner.videos + [id]));
    res := Response(201, VideoDone(VideoUploaded, VideoView(id, v)));
  }

  datatype Handler = UploadProfilePictureH | UploadVideoH

  /** The routes in the order they are registered; both sit behind `protect`. */
  const Table: seq<Route<Handler>> := [
    Route(Post, Exact("profile-picture"), true, UploadProfilePictureH),
    Route(Post, Exact("video"), true, UploadVideoH)
  ]

  /** No upload reaches a handler without authentication, and only POST reaches one. */
  lemma UploadsAreProtected(verb: Verb, path: string)
    ensures var r := Dispatch(Table, verb, path);
      r.Some? ==> r.value.protected && verb == Post && (path == "/profile-picture" || path == "/video")
  {
  }
}
