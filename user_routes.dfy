/**
 * Backend/routes/UserRoutes.js: the `/bio` update handler and the router's
 * table of routes, in registration order, with the routes that sit behind
 * the `protect` middleware marked.  `protect` itself is not part of this
 * model: a protected handler receives the authenticated user's id.
 */
module UserRoutes {
  import opened Wrappers
  import opened Models
  import opened Http
  import opened Services
  import UserController

  const BioUpdated := "Bio updated successfully"

  /**
   * `PUT /bio`: overwrite the authenticated user's bio with the request's
   * value, whatever its length; a body without `bio` clears it.
   */
  method UpdateBio(db: Backend, userId: ObjectId, bio: Option<string>) returns (res: Response)
    requires db.Valid()
    modifies db
    ensures db.Valid() && db.videos == old(db.videos) && db.nextId == old(db.nextId)
    ensures userId !in old(db.users) ==>
      res == Response(404, Message(UserController.UserNotFound)) && db.users == old(db.users) && db.log == old(db.log)
    ensures userId in old(db.users) ==>
      var u := old(db.users)[userId].(bio := bio);
      && res == Response(200, Done(BioUpdated))
      && db.users == old(db.users)[userId := u]
      && db.log == old(db.log) + [UserSaved(userId, u)]
  {
    if userId !in db.users {
      return Response(404, Message(UserController.UserNotFound));
    }
    var updated := db.users[userId].(bio := bio);
    UpdateUserKeepsConsistent(db.users, db.videos, db.nextId, userId, updated);
    db.SaveUser(userId, updated);
    res := Response(200, Done(BioUpdated));
  }

  /** The handlers the router dispatches to. */
  datatype Handler = RegisterH | LoginH | UpdateBioH | GetAllUsersH | GetUserDetailsH | GetUserDetailsByIdH

  /** The routes in the order they are registered. */
  const Table: seq<Route<Handler>> := [
    Route(Post, Exact("register"), false, RegisterH),
    Route(Post, Exact("login"), false, LoginH),
    Route(Put, Exact("bio"), true, UpdateBioH),
    Route(Get, Exact("all"), false, GetAllUsersH),
    Route(Get, Exact("me"), true, GetUserDetailsH),
    Route(Get, Param("userId"), false, GetUserDetailsByIdH)
  ]

  /** Exactly the bio update and the current-user read sit behind `protect`. */
  lemma ProtectedRoutes(verb: Verb, path: string)
    ensures var r := Dispatch(Table, verb, path);
      r.Some? ==> (r.value.protected <==> r.value.handler == UpdateBioH || r.value.handler == GetUserDetailsH)
  {
    var i := FirstRoute(Table, verb, path, 0);
    if i.Some? {
      assert Table[i.value] in Table;
    }
  }

  /** `GET /all` reaches `getAllUsers`, not an id lookup, and `GET /me` reaches `getUserDetails`. */
  lemma FixedPathsWinOverTheParameter()
    ensures Dispatch(Table, Get, "/all") == Some(Table[3])
    ensures Dispatch(Table, Get, "/me") == Some(Table[4])
  {
    assert !Handles(Table[0], Get, "/all") && !Handles(Table[1], Get, "/all") && !Handles(Table[2], Get, "/all");
    assert Handles(Table[3], Get, "/all");
    assert FirstRoute(Table, Get, "/all", 0) == Some(3);
    assert !Handles(Table[3], Get, "/me");
    assert Handles(Table[4], Get, "/me");
    assert FirstRoute(Table, Get, "/me", 0) == Some(4);
  }

  /** Any other one-segment GET path is taken as a user id, without authentication. */
  lemma OtherSegmentsAreUserIds(segment: string)
    requires segment != "" && '/' !in segment && segment != "all" && segment != "me"
    ensures Dispatch(Table, Get, "/" + segment) == Some(Table[5])
    ensures !Table[5].protected
  {
    var path := "/" + segment;
    assert path[1..] == segment;
    assert FirstRoute(Table, Get, path, 0) == Some(5);
  }

  /** No fixed path of this router contains a `/` of its own. */
  lemma SegmentsAreSingle(i: nat)
    requires i < |Table|
    ensures Table[i].pattern.Exact? ==> '/' !in Table[i].pattern.segment
  {
  }

  /** A path with more than one segment reaches no route of this router. */
  lemma NestedPathsAreNotRouted(verb: Verb, a: string, b: string)
    requires a != ""
    ensures Dispatch(Table, verb, "/" + a + "/" + b).None?
  {
    var path := "/" + a + "/" + b;
    assert path[1..][|a|] == '/';
    forall i | 0 <= i < |Table|
      ensures !Handles(Table[i], verb, path)
    {
      SegmentsAreSingle(i);
    }
  }
}
