/**
 * The signed-in user's own profile endpoint: GET returns the stored
 * profile, PUT updates it with the request body after removing the keys a
 * client may not change. The auth and database answers are parameters; the
 * endpoint's calls to them are recorded as a list.
 */
module UsersMe {
  import opened Wrappers

  /** A JSON value. */
  datatype Json =
    | JNull
    | JBool(b: bool)
    | JNum(n: int)
    | JStr(s: string)
    | JArr(items: seq<Json>)
    | JObj(fields: map<string, Json>)

  /** The keys a PUT body may not change. */
  const ProtectedKeys: set<string> :=
    {"id", "phone", "created_at", "wallet_balance", "is_student_verified", "is_driver_verified"}

  /** The update object with every protected key removed and every other entry kept. */
  function Strip(m: map<string, Json>): (r: map<string, Json>)
    ensures forall k :: k in r <==> k in m && k !in ProtectedKeys
    ensures forall k :: k in r ==> r[k] == m[k]
  {
    m - ProtectedKeys
  }

  /** Stripping twice is stripping once. */
  lemma StripIdempotent(m: map<string, Json>)
    ensures Strip(Strip(m)) == Strip(m)
  {
  }

  /** A body without protected keys goes to the database as sent. */
  lemma StripKeepsCleanBody(m: map<string, Json>)
    requires forall k :: k in m ==> k !in ProtectedKeys
    ensures Strip(m) == m
  {
  }

  /** Whatever a client puts under a protected key, the stored update is the same. */
  lemma ProtectedValuesIgnored(m: map<string, Json>, k: string, v: Json)
    requires k in ProtectedKeys
    ensures Strip(m[k := v]) == Strip(m)
  {
  }

  /** The parsed PUT body, whose properties are deleted in place. */
  class ProfileUpdates {
    var fields: map<string, Json>

    constructor(m: map<string, Json>)
      ensures fields == m
    {
      fields := m;
    }

    /** `delete updates[key]`. */
    method Delete(key: string)
      modifies this
      ensures fields == old(fields) - {key}
    {
      fields := fields - {key};
    }

    /** The six deletions, one after another. */
    method StripProtected()
      modifies this
      ensures fields == Strip(old(fields))
    {
      ghost var m := fields;
      Delete("id");
      Delete("phone");
      Delete("created_at");
      Delete("wallet_balance");
      Delete("is_student_verified");
      Delete("is_driver_verified");
      assert fields.Keys == m.Keys - ProtectedKeys;
    }
  }

  /** A request: its method (`verb`), its Authorization header, and its body (`None` when it is not JSON). */
  datatype Request = Request(verb: string, authorization: Option<string>, body: Option<Json>)

  /** What the services answer: the token's user id, the profile lookup, and the update. */
  datatype Services = Services(user: Option<string>, profile: Option<Json>, update: UpdateResult)

  datatype UpdateResult = Updated(row: Json) | UpdateFailed(message: string)

  /** A call the endpoint makes. */
  datatype Call =
    | GetUser(authorization: string)
    | SelectProfile(userId: string)
    | UpdateProfile(userId: string, updates: Json)

  datatype Body = NoBody | ErrorBody(error: string) | JsonBody(value: Json)

  datatype Response = Response(status: nat, body: Body)

  /** A falsy header: absent or empty. */
  predicate Missing(h: Option<string>) {
    h.None? || h.value == ""
  }

  /**
   * One request. OPTIONS answers 200 at once; a missing header answers 401
   * before any call; a token without a user answers 401; GET and PUT act on
   * the token's own profile only; any other method answers 405. A PUT body
   * that is not JSON, or is `null`, answers 500.
   */
  method Serve(req: Request, svc: Services) returns (resp: Response, calls: seq<Call>)
    ensures req.verb == "OPTIONS" ==> resp == Response(200, NoBody) && calls == []
    ensures req.verb != "OPTIONS" && Missing(req.authorization)
      ==> resp == Response(401, ErrorBody("Missing authorization header")) && calls == []
    ensures req.verb != "OPTIONS" && !Missing(req.authorization)
      ==> |calls| >= 1 && calls[0] == GetUser(req.authorization.value)
    ensures req.verb != "OPTIONS" && !Missing(req.authorization) && svc.user.None?
      ==> resp == Response(401, ErrorBody("Unauthorized")) && |calls| == 1
    ensures req.verb == "GET" && !Missing(req.authorization) && svc.user.Some?
      ==> calls == [GetUser(req.authorization.value), SelectProfile(svc.user.value)]
    ensures req.verb == "GET" && !Missing(req.authorization) && svc.user.Some?
      ==> resp == (if svc.profile.None? then Response(404, ErrorBody("Profile not found"))
                   else Response(200, JsonBody(svc.profile.value)))
    ensures req.verb == "PUT" && !Missing(req.authorization) && svc.user.Some? && req.body.Some? && req.body.value.JObj?
      ==> calls == [GetUser(req.authorization.value), UpdateProfile(svc.user.value, JObj(Strip(req.body.value.fields)))]
    ensures req.verb == "PUT" && !Missing(req.authorization) && svc.user.Some? && req.body.Some? && !req.body.value.JNull?
      ==> resp == (if svc.update.UpdateFailed? then Response(400, ErrorBody(svc.update.message))
                   else Response(200, JsonBody(svc.update.row)))
    ensures req.verb == "PUT" && !Missing(req.authorization) && svc.user.Some? && (req.body.None? || req.body == Some(JNull))
      ==> resp.status == 500 && |calls| == 1
    ensures req.verb !in {"OPTIONS", "GET", "PUT"} && !Missing(req.authorization) && svc.user.Some?
      ==> resp == Response(405, ErrorBody("Method not allowed")) && |calls| == 1
    ensures forall c, k :: c in calls && c.UpdateProfile? && c.updates.JObj? && k in c.updates.fields ==> k !in ProtectedKeys
    ensures forall c :: c in calls && !c.GetUser? ==> svc.user.Some? && c.userId == svc.user.value
  {
    if req.verb == "OPTIONS" {
      return Response(200, NoBody), [];
    }
    if Missing(req.authorization) {
      return Response(401, ErrorBody("Missing authorization header")), [];
    }
    calls := [GetUser(req.authorization.value)];
    if svc.user.None? {
      return Response(401, ErrorBody("Unauthorized")), calls;
    }
    var userId := svc.user.value;
    if req.verb == "GET" {
      calls := calls + [SelectProfile(userId)];
      if svc.profile.None? {
        return Response(404, ErrorBody("Profile not found")), calls;
      }
      return Response(200, JsonBody(svc.profile.value)), calls;
    }
    if req.verb == "PUT" {
      if req.body.None? {
        return Response(500, ErrorBody("Unexpected end of JSON input")), calls;
      }
      var updates := req.body.value;
      if updates.JNull? {
        return Response(500, ErrorBody("Cannot convert undefined or null to object")), calls;
      }
      if updates.JObj? {
        var u := new ProfileUpdates(updates.fields);
        u.StripProtected();
        updates := JObj(u.fields);
      }
      calls := calls + [UpdateProfile(userId, updates)];
      if svc.update.UpdateFailed? {
        return Response(400, ErrorBody(svc.update.message)), calls;
      }
      return Response(200, JsonBody(svc.update.row)), calls;
    }
    return Response(405, ErrorBody("Method not allowed")), calls;
  }
}
