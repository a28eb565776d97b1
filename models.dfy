/**
 * The two document schemas (Backend/models/User.js, Backend/models/Video.js)
 * and the invariant the store of all documents keeps.
 *
 * Mongoose's `required: true` on a String path rejects a value that is missing
 * or empty; `unique: true` on `email` is a unique index over the collection;
 * `default` fills a path the creator did not set.
 */
module Models {
  import opened Wrappers
  import opened Bcrypt

  /** A MongoDB ObjectId.  Users and videos draw theirs from one generator. */
  type ObjectId = nat

  datatype User = User(
    firstname: string,
    lastname: string,
    email: string,
    mobile: string,
    password: Digest,
    bio: Option<string>,
    profilePicture: Option<string>,
    videos: seq<ObjectId>,
    emailRegistered: bool)

  /** A video carries no owner: ownership lives only in `User.videos`. */
  datatype Video = Video(videoUrl: string, title: string, description: string, thumbnailUrl: string)

  /** What `required: true` demands of a String path. */
  predicate Present(s: string)
  {
    s != ""
  }

  /**
   * The required paths of a user.  `password` holds a `Digest`, never empty,
   * so only the four identity strings can fail validation.
   */
  predicate UserValid(u: User)
  {
    Present(u.firstname) && Present(u.lastname) && Present(u.email) && Present(u.mobile)
  }

  predicate VideoValid(v: Video)
  {
    Present(v.videoUrl) && Present(v.title) && Present(v.description) && Present(v.thumbnailUrl)
  }

  /** `new User({...})` with the schema's defaults for the paths left unset. */
  function NewUser(firstname: string, lastname: string, email: string, mobile: string, password: Digest): (u: User)
    ensures u.firstname == firstname && u.lastname == lastname && u.email == email && u.mobile == mobile
    ensures u.password == password
    ensures u.videos == [] && !u.emailRegistered
    ensures u.bio.None? && u.profilePicture.None?
    ensures UserValid(u) <==> firstname != "" && lastname != "" && email != "" && mobile != ""
  {
    User(firstname, lastname, email, mobile, password, None, None, [], false)
  }

  predicate EmailTaken(users: map<ObjectId, User>, email: string)
  {
    exists id :: id in users && users[id].email == email
  }

  /** The unique index on `email`. */
  predicate EmailsUnique(users: map<ObjectId, User>)
  {
    forall a, b :: a in users && b in users && users[a].email == users[b].email ==> a == b
  }

  /** Some user lists `vid` among its videos. */
  predicate Owned(users: map<ObjectId, User>, vid: ObjectId)
  {
    exists a, i :: a in users && 0 <= i < |users[a].videos| && users[a].videos[i] == vid
  }

  /** Every video id a user lists names a stored video. */
  predicate RefsResolve(users: map<ObjectId, User>, videos: map<ObjectId, Video>)
  {
    forall a, i :: a in users && 0 <= i < |users[a].videos| ==> users[a].videos[i] in videos
  }

  /** A video id occurs at most once across all users' lists. */
  predicate SingleOwner(users: map<ObjectId, User>)
  {
    forall a, b, i, j ::
      (a in users && b in users && 0 <= i < |users[a].videos| && 0 <= j < |users[b].videos| &&
       users[a].videos[i] == users[b].videos[j]) ==> a == b && i == j
  }

  /**
   * The invariant of the two collections: every stored document passes
   * validation, emails are unique, every id was drawn from the generator
   * (so the next id is fresh), and ownership links are resolvable and
   * single.  Orphaned videos, owned by nobody, are allowed.
   */
  ghost predicate Consistent(users: map<ObjectId, User>, videos: map<ObjectId, Video>, nextId: ObjectId)
  {
    && (forall id :: id in users ==> id < nextId && UserValid(users[id]))
    && (forall id :: id in videos ==> id < nextId && VideoValid(videos[id]))
    && EmailsUnique(users)
    && RefsResolve(users, videos)
    && SingleOwner(users)
  }

  /** The identity paths a user keeps for life. */
  predicate SameIdentity(u: User, w: User)
  {
    u.firstname == w.firstname && u.lastname == w.lastname && u.email == w.email &&
    u.mobile == w.mobile && u.password == w.password
  }

  /** Inserting a valid new user whose email is free keeps the store consistent. */
  lemma InsertUserKeepsConsistent(users: map<ObjectId, User>, videos: map<ObjectId, Video>, nextId: ObjectId, id: ObjectId, u: User)
    requires Consistent(users, videos, nextId)
    requires id < nextId && id !in users
    requires UserValid(u) && u.videos == [] && !EmailTaken(users, u.email)
    ensures Consistent(users[id := u], videos, nextId)
  {
  }

  /** Rewriting a user's non-identity paths, keeping its video list, keeps the store consistent. */
  lemma UpdateUserKeepsConsistent(users: map<ObjectId, User>, videos: map<ObjectId, Video>, nextId: ObjectId, id: ObjectId, u: User)
    requires Consistent(users, videos, nextId)
    requires id in users && SameIdentity(users[id], u) && u.videos == users[id].videos
    ensures Consistent(users[id := u], videos, nextId)
  {
    var users' := users[id := u];
    forall a, b | a in users' && b in users' && users'[a].email == users'[b].email
      ensures a == b
    {
      assert users[a].email == users'[a].email && users[b].email == users'[b].email;
    }
    forall a, b, i, j |
      a in users' && b in users' && 0 <= i < |users'[a].videos| && 0 <= j < |users'[b].videos| &&
      users'[a].videos[i] == users'[b].videos[j]
      ensures a == b && i == j
    {
      assert users'[a].videos == users[a].videos && users'[b].videos == users[b].videos;
    }
  }

  /** Inserting a valid video under a fresh id keeps the store consistent, and nobody owns it yet. */
  lemma InsertVideoKeepsConsistent(users: map<ObjectId, User>, videos: map<ObjectId, Video>, nextId: ObjectId, id: ObjectId, v: Video)
    requires Consistent(users, videos, nextId)
    requires id < nextId && id !in videos
    requires VideoValid(v)
    ensures Consistent(users, videos[id := v], nextId)
    ensures !Owned(users, id)
  {
  }

  /** Appending a stored, unowned video to one user's list keeps the store consistent. */
  lemma AppendVideoKeepsConsistent(users: map<ObjectId, User>, videos: map<ObjectId, Video>, nextId: ObjectId, id: ObjectId, vid: ObjectId)
    requires Consistent(users, videos, nextId)
    requires id in users && vid in videos && !Owned(users, vid)
    ensures Consistent(users[id := users[id].(videos := users[id].videos + [vid])], videos, nextId)
  {
    var u := users[id].(videos := users[id].videos + [vid]);
    var users' := users[id := u];
    var n := |users[id].videos|;
    forall a, b | a in users' && b in users' && users'[a].email == users'[b].email
      ensures a == b
    {
      assert users[a].email == users'[a].email && users[b].email == users'[b].email;
    }
    forall a, i | a in users' && 0 <= i < |users'[a].videos|
      ensures users'[a].videos[i] in videos
    {
      if a != id || i < n {
        assert users'[a].videos[i] == users[a].videos[i];
      }
    }
    forall a, b, i, j |
      a in users' && b in users' && 0 <= i < |users'[a].videos| && 0 <= j < |users'[b].videos| &&
      users'[a].videos[i] == users'[b].videos[j]
      ensures a == b && i == j
    {
      var ia := a == id && i == n;
      var jb := b == id && j == n;
      if !ia {
        assert users'[a].videos[i] == users[a].videos[i];
      }
      if !jb {
        assert users'[b].videos[j] == users[b].videos[j];
      }
    }
  }
}
