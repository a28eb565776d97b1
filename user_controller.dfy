/**
 * The account handlers of Backend/controller/userController.js: `register`,
 * `login`, `getUserDetails`, `getUserDetailsById` and `getAllUsers`.
 *
 * Each handler is a method over the `Backend` services; its randomness (the
 * password generator's draws, bcrypt's salt) and its environment (the login
 * URL) are parameters.  Reads answer with `UserView`s, which have no password
 * path at all.
 */
module UserController {
  import opened Wrappers
  import opened Bcrypt
  import opened Models
  import opened Http
  import opened Password
  import opened Services

  const UserExists := "User already exists"
  const Registered := "User registered successfully. Please check your email for your password."
  const RegisterFailed := "Error registering user"
  const UserNotFound := "User not found"
  const InvalidCredentials := "Invalid credentials"
  const LoginSuccessful := "Login successful"
  const FetchDetailsFailed := "Error fetching user details"

  const EmailSubject := "Your Account Details"

  /** The account email's text up to the password, with the template literal's own line breaks and indentation. */
  const EmailIntro := "\n            Your account has been created successfully.\n\n\n            Your temporary password is: "
  const EmailLinkLine := "\n\n\n            Please log in using the following link: "

  /** The account email's text for a generated password; `loginUrl` is the `LOGIN_URL` setting. */
  function AccountEmailText(password: string, loginUrl: string): string
  {
    EmailIntro + password + EmailLinkLine + loginUrl + "\n        "
  }

  /** The email carries the plaintext password at a fixed place, and the login link after it. */
  lemma EmailCarriesPassword(password: string, loginUrl: string)
    ensures var text := AccountEmailText(password, loginUrl);
      && text[|EmailIntro|..|EmailIntro| + |password|] == password
      && text[|EmailIntro| + |password| + |EmailLinkLine|..][..|loginUrl|] == loginUrl
  {
    var text := AccountEmailText(password, loginUrl);
    assert text == EmailIntro + password + (EmailLinkLine + loginUrl + "\n        ");
    assert text[|EmailIntro| + |password| + |EmailLinkLine|..] == loginUrl + "\n        ";
  }

  datatype RegisterBody = RegisterBody(firstname: string, lastname: string, email: string, mobile: string)

  datatype LoginBody = LoginBody(firstname: string, password: string)

  /** The user a registration creates once its password is generated. */
  function RegisteredUser(body: RegisterBody, password: string, salt: nat): User
  {
    NewUser(body.firstname, body.lastname, body.email, body.mobile, Hash(password, SaltRounds, salt))
  }

  /** `populate('videos')`: each id replaced by its document; an id with no document is dropped. */
  function Populate(ids: seq<ObjectId>, videos: map<ObjectId, Video>): (r: seq<VideoView>)
    ensures |r| <= |ids|
    ensures forall k :: 0 <= k < |r| ==> r[k].id in videos && r[k].video == videos[r[k].id]
  {
    if ids == [] then []
    else (if ids[0] in videos then [VideoView(ids[0], videos[ids[0]])] else []) + Populate(ids[1..], videos)
  }

  /** When every id resolves, population keeps every id, in order. */
  lemma {:induction false} PopulateResolved(ids: seq<ObjectId>, videos: map<ObjectId, Video>)
    requires forall i :: 0 <= i < |ids| ==> ids[i] in videos
    ensures |Populate(ids, videos)| == |ids|
    ensures forall k :: 0 <= k < |ids| ==> Populate(ids, videos)[k] == VideoView(ids[k], videos[ids[k]])
  {
    if ids != [] {
      PopulateResolved(ids[1..], videos);
    }
  }

  /** `select('-password').populate('videos')` of one stored user. */
  function PublicView(id: ObjectId, u: User, videos: map<ObjectId, Video>): UserView
  {
    UserView(id, u.firstname, u.lastname, u.email, u.mobile, u.bio, u.profilePicture,
             Populate(u.videos, videos), u.emailRegistered)
  }

  /** In a consistent store the public view of a user shows all of its videos, in its own order. */
  lemma ViewShowsEveryVideo(users: map<ObjectId, User>, videos: map<ObjectId, Video>, nextId: ObjectId, id: ObjectId)
    requires Consistent(users, videos, nextId) && id in users
    ensures var view := PublicView(id, users[id], videos);
      && |view.videos| == |users[id].videos|
      && forall k :: 0 <= k < |view.videos| ==> view.videos[k] == VideoView(users[id].videos[k], videos[users[id].videos[k]])
  {
    PopulateResolved(users[id].videos, videos);
  }

  /** The ids of the users in `[from, bound)`, in natural order: the order `User.find()` returns them in. */
  function UserIds(users: map<ObjectId, User>, from: nat, bound: nat): (ids: seq<ObjectId>)
    decreases bound - from
    ensures forall k :: 0 <= k < |ids| ==> from <= ids[k] < bound && ids[k] in users
    ensures forall k, l :: 0 <= k < l < |ids| ==> ids[k] < ids[l]
  {
    if from >= bound then []
    else if from in users then [from] + UserIds(users, from + 1, bound)
    else UserIds(users, from + 1, bound)
  }

  /** No user in range is left out. */
  lemma {:induction false} UserIdsComplete(users: map<ObjectId, User>, from: nat, bound: nat, id: ObjectId)
    requires from <= id < bound && id in users
    decreases bound - from
    ensures id in UserIds(users, from, bound)
  {
    if id != from {
      UserIdsComplete(users, from + 1, bound, id);
    }
  }

  /** `User.find().select('-password').populate('videos')`: the public view of every user below `bound`. */
  function AllUsers(users: map<ObjectId, User>, videos: map<ObjectId, Video>, bound: nat): (r: seq<UserView>)
    ensures forall k :: 0 <= k < |r| ==>
      r[k].id in users && r[k].id < bound && r[k] == PublicView(r[k].id, users[r[k].id], videos)
    ensures forall k, l :: 0 <= k < l < |r| ==> r[k].id < r[l].id
  {
    var ids := UserIds(users, 0, bound);
    seq(|ids|, k requires 0 <= k < |ids| => PublicView(ids[k], users[ids[k]], videos))
  }

  /** In a consistent store, every user appears in the listing. */
  lemma AllUsersListsEveryUser(users: map<ObjectId, User>, videos: map<ObjectId, Video>, nextId: ObjectId, id: ObjectId)
    requires Consistent(users, videos, nextId) && id in users
    ensures exists k :: 0 <= k < |AllUsers(users, videos, nextId)| && AllUsers(users, videos, nextId)[k].id == id
  {
    var ids := UserIds(users, 0, nextId);
    UserIdsComplete(users, 0, nextId, id);
    var k :| 0 <= k < |ids| && ids[k] == id;
    assert AllUsers(users, videos, nextId)[k].id == id;
  }

  /**
   * `register`: reject a taken email; otherwise generate a password, hash it,
   * build the user, email the plaintext password, and only then save.  A save
   * that fails validation still follows the email and answers 500.
   */
  method Register(db: Backend, body: RegisterBody, k1: nat, k2: nat, slots: seq<nat>, salt: nat, loginUrl: string)
    returns (res: Response)
    requires db.Valid()
    requires k1 < |Alphabet| && k2 < |Alphabet|
    requires ValidSlots(slots, PasswordLength(body.firstname, body.email, body.mobile))
    modifies db
    ensures db.Valid() && db.videos == old(db.videos)
    ensures EmailTaken(old(db.users), body.email) ==>
      && res == Response(400, Message(UserExists))
      && db.users == old(db.users) && db.nextId == old(db.nextId) && db.log == old(db.log)
    ensures !EmailTaken(old(db.users), body.email) ==>
      var password := GeneratePassword(body.firstname, body.email, body.mobile, k1, k2, slots);
      var id := old(db.nextId);
      var u := RegisteredUser(body, password, salt);
      var email := EmailSent(body.email, EmailSubject, AccountEmailText(password, loginUrl));
      && db.nextId == id + 1
      && (UserValid(u) ==>
            && res == Response(201, Message(Registered))
            && db.users == old(db.users)[id := u]
            && db.log == old(db.log) + [email] + [UserSaved(id, u)])
      && (!UserValid(u) ==>
            && res == Response(500, ErrorBody(RegisterFailed))
            && db.users == old(db.users)
            && db.log == old(db.log) + [email])
  {
    if EmailTaken(db.users, body.email) {
      return Response(400, Message(UserExists));
    }
    var password := GeneratePassword(body.firstname, body.email, body.mobile, k1, k2, slots);
    var id := db.NewObjectId();
    var user := RegisteredUser(body, password, salt);
    db.SendEmail(body.email, EmailSubject, AccountEmailText(password, loginUrl));
    var err := db.InsertUser(id, user);
    if err.Some? {
      return Response(500, ErrorBody(RegisterFailed));
    }
    res := Response(201, Message(Registered));
  }

  /**
   * `login`: the first user with the given first name, checked against the
   * password; success marks the user's email as registered and returns its token.
   */
  method Login(db: Backend, body: LoginBody) returns (res: Response)
    requires db.Valid()
    modifies db
    ensures db.Valid() && db.videos == old(db.videos) && db.nextId == old(db.nextId)
    ensures var found := FindOneByFirstname(old(db.users), body.firstname, 0, old(db.nextId));
      && (found.None? ==>
            res == Response(400, Message(UserNotFound)) && db.users == old(db.users) && db.log == old(db.log))
      && (found.Some? && !Compare(body.password, old(db.users)[found.value].password) ==>
            res == Response(400, Message(InvalidCredentials)) && db.users == old(db.users) && db.log == old(db.log))
      && (found.Some? && Compare(body.password, old(db.users)[found.value].password) ==>
            var u := old(db.users)[found.value];
            var u' := u.(emailRegistered := true);
            && res == Response(200, LoginOk(LoginSuccessful, Token(found.value, u.firstname, u.email)))
            && db.users == old(db.users)[found.value := u']
            && db.log == old(db.log) + [UserSaved(found.value, u')])
  {
    var found := FindOneByFirstname(db.users, body.firstname, 0, db.nextId);
    if found.None? {
      return Response(400, Message(UserNotFound));
    }
    var id := found.value;
    var user := db.users[id];
    if !Compare(body.password, user.password) {
      return Response(400, Message(InvalidCredentials));
    }
    var token := Token(id, user.firstname, user.email);
    var updated := user.(emailRegistered := true);
    UpdateUserKeepsConsistent(db.users, db.videos, db.nextId, id, updated);
    db.SaveUser(id, updated);
    res := Response(200, LoginOk(LoginSuccessful, token));
  }

  /** Every user is within reach of the first-name lookup, so a 'User not found' login means nobody has that first name. */
  lemma LoginSearchesEveryUser(users: map<ObjectId, User>, videos: map<ObjectId, Video>, nextId: ObjectId, firstname: string)
    requires Consistent(users, videos, nextId)
    ensures FindOneByFirstname(users, firstname, 0, nextId).None? <==>
      forall id :: id in users ==> users[id].firstname != firstname
  {
    var found := FindOneByFirstname(users, firstname, 0, nextId);
    if found.Some? {
      assert users[found.value].firstname == firstname;
    }
  }

  /** `getUserDetails`: the authenticated user's own record, without its password. */
  method GetUserDetails(db: Backend, userId: ObjectId) returns (res: Response)
    ensures userId !in db.users ==> res == Response(404, Message(UserNotFound))
    ensures userId in db.users ==> res == Response(200, OneUser(PublicView(userId, db.users[userId], db.videos)))
  {
    if userId !in db.users {
      return Response(404, Message(UserNotFound));
    }
    res := Response(200, OneUser(PublicView(userId, db.users[userId], db.videos)));
  }

  /**
   * `getUserDetailsById`: `userId` is the route parameter already cast to an
   * ObjectId, or `None` when the cast fails, which answers 500.
   */
  method GetUserDetailsById(db: Backend, userId: Option<ObjectId>) returns (res: Response)
    ensures userId.None? ==> res == Response(500, ErrorBody(FetchDetailsFailed))
    ensures userId.Some? && userId.value !in db.users ==> res == Response(404, Message(UserNotFound))
    ensures userId.Some? && userId.value in db.users ==>
      res == Response(200, OneUser(PublicView(userId.value, db.users[userId.value], db.videos)))
  {
    if userId.None? {
      return Response(500, ErrorBody(FetchDetailsFailed));
    }
    res := GetUserDetails(db, userId.value);
  }

  /** `getAllUsers`: every user exactly once, in natural order, without passwords. */
  method GetAllUsers(db: Backend) returns (res: Response)
    ensures res == Response(200, ManyUsers(AllUsers(db.users, db.videos, db.nextId)))
  {
    res := Response(200, ManyUsers(AllUsers(db.users, db.videos, db.nextId)));
  }
}
