/**
 * The registration endpoint: request validation and defaults, the
 * duplicate-phone check, the derived login e-mail, the discount and
 * initial-status rules, and the rollback when the profile cannot be
 * stored. The database and auth service answers are parameters; the
 * endpoint's calls to them are recorded as a list of actions.
 */
module AuthRegister {
  import opened Wrappers
  import opened Text

  /** The JSON body; `None` is a key the body does not carry (or a value that is not a string). */
  datatype RegisterBody = RegisterBody(
    phone: Option<string>, name: Option<string>, password: Option<string>,
    userType: Option<string>, profileType: Option<string>)

  /** What the auth and database services answer, in call order. */
  datatype Services = Services(
    phoneTaken: bool,
    createUser: Result,
    profileInsert: Option<string>,
    signIn: SignInResult)

  /** `createUser`: the new user's id or the service's error message. */
  datatype Result = Created(userId: string) | CreateFailed(message: string)

  datatype SignInResult = SignedIn(token: Option<string>, refreshToken: Option<string>) | SignInFailed(message: string)

  /** The row inserted into `profiles`. */
  datatype ProfileRow = ProfileRow(
    id: string, phone: string, name: string, userType: string, profileType: string,
    discountPercentage: nat, status: string)

  /** A call the endpoint makes to a service. */
  datatype Action =
    | LookUpPhone(phone: string)
    | CreateUser(email: string, password: string)
    | InsertProfile(row: ProfileRow)
    | DeleteUser(userId: string)
    | GenerateLink(email: string)
    | SignIn(email: string, password: string)

  datatype Body =
    | NoBody
    | ErrorBody(error: string)
    | UserBody(id: string, phone: string, name: string, userType: string, profileType: string,
               discountPercentage: nat, token: Option<string>, refreshToken: Option<string>)

  datatype Response = Response(status: nat, body: Body)

  /** A falsy string: absent or empty. */
  predicate Missing(s: Option<string>) {
    s.None? || s.value == ""
  }

  /** The three required fields are present and non-empty. */
  predicate Accepted(b: RegisterBody) {
    !Missing(b.phone) && !Missing(b.name) && !Missing(b.password)
  }

  /** The login e-mail: the phone number's digits followed by the service domain. */
  function LoginEmail(phone: string): (email: string)
    ensures email == DigitsOnly(phone) + "@mototaxi.app"
    ensures forall i :: 0 <= i < |email| - 13 ==> IsDigit(email[i])
  {
    DigitsOnly(phone) + "@mototaxi.app"
  }

  /** A phone typed as plain digits is the login e-mail's local part unchanged. */
  lemma PlainNumberEmail(phone: string)
    requires forall i :: 0 <= i < |phone| ==> IsDigit(phone[i])
    ensures LoginEmail(phone) == phone + "@mototaxi.app"
  {
  }

  /** The digits of a concatenation are the digits of each part. */
  lemma {:induction false} DigitsOnlyAppend(a: string, b: string)
    ensures DigitsOnly(a + b) == DigitsOnly(a) + DigitsOnly(b)
    decreases |a|
  {
    if |a| > 0 {
      assert (a + b)[1..] == a[1..] + b;
      DigitsOnlyAppend(a[1..], b);
    } else {
      assert a + b == b;
    }
  }

  /**
   * Spaces, dashes or a leading plus do not change the login e-mail: two
   * spellings of one number map to one e-mail (what this means for a
   * second sign-up is `SpellingsShareEmail`).
   */
  lemma SeparatorDoesNotChangeEmail(a: string, c: char, b: string)
    requires !IsDigit(c)
    ensures LoginEmail(a + [c] + b) == LoginEmail(a + b)
  {
    DigitsOnlyAppend(a + [c], b);
    DigitsOnlyAppend(a, [c]);
    DigitsOnlyAppend(a, b);
    NonDigitDropped(c);
    var da, db := DigitsOnly(a), DigitsOnly(b);
    assert DigitsOnly(a + [c]) == da;
    assert DigitsOnly(a + [c] + b) == da + db;
  }

  /** A lone non-digit has no digits. */
  lemma NonDigitDropped(c: char)
    requires !IsDigit(c)
    ensures DigitsOnly([c]) == ""
  {
    assert [c][1..] == "";
    assert DigitsOnly([c]) == "" + DigitsOnly("");
  }

  /** `discount_percentage`: 15 for students, 10 for workers, 0 otherwise. */
  function Discount(profileType: string): (d: nat)
    ensures d == 15 <==> profileType == "student"
    ensures d == 10 <==> profileType == "worker"
    ensures d == 0 <==> profileType != "student" && profileType != "worker"
  {
    if profileType == "student" then 15 else if profileType == "worker" then 10 else 0
  }

  /** The initial account status: drivers wait for approval, everyone else is active. */
  function InitialStatus(userType: string): (s: string)
    ensures s == "pending" <==> userType == "driver"
    ensures s == "active" <==> userType != "driver"
  {
    if userType == "driver" then "pending" else "active"
  }

  /** The outcome of one request: the response and the service calls made, in order. */
  datatype Outcome = Outcome(response: Response, actions: seq<Action>)

  /**
   * One POST to the endpoint (an OPTIONS request answers 200 at once; a
   * body that is not JSON answers 500). Missing fields answer 400 before
   * any call; a taken phone answers 400 after the lookup; a failed profile
   * insert deletes the created user and answers 500.
   */
  function Register(isOptions: bool, body: Option<RegisterBody>, svc: Services): (o: Outcome)
    ensures isOptions ==> o == Outcome(Response(200, NoBody), [])
    ensures !isOptions && body.None? ==> o.response.status == 500 && o.actions == []
    ensures !isOptions && body.Some? && (Missing(body.value.phone) || Missing(body.value.name) || Missing(body.value.password))
      ==> o == Outcome(Response(400, ErrorBody("Phone, name, and password are required")), [])
    ensures o.response.status == 200 && !isOptions ==> o.response.body.UserBody?
    ensures !isOptions && body.Some? && Accepted(body.value) && !svc.phoneTaken && svc.createUser.CreateFailed?
      ==> o.response == Response(400, ErrorBody(svc.createUser.message))
    ensures !isOptions && body.Some? && Accepted(body.value) && !svc.phoneTaken && svc.createUser.Created?
      && svc.profileInsert.None? && svc.signIn.SignInFailed?
      ==> o.response == Response(400, ErrorBody(svc.signIn.message))
    ensures o.response.status == 200 && !isOptions ==>
      && body.Some? && Accepted(body.value) && svc.createUser.Created? && svc.signIn.SignedIn?
      && o.response.body == UserBody(svc.createUser.userId, body.value.phone.value, body.value.name.value,
           body.value.userType.GetOr("customer"), body.value.profileType.GetOr("regular"),
           Discount(body.value.profileType.GetOr("regular")), svc.signIn.token, svc.signIn.refreshToken)
  {
    if isOptions then Outcome(Response(200, NoBody), [])
    else if body.None? then Outcome(Response(500, ErrorBody("Unexpected end of JSON input")), [])
    else
      var b := body.value;
      var userType := b.userType.GetOr("customer");
      var profileType := b.profileType.GetOr("regular");
      if Missing(b.phone) || Missing(b.name) || Missing(b.password) then
        Outcome(Response(400, ErrorBody("Phone, name, and password are required")), [])
      else
        var phone := b.phone.value;
        var name := b.name.value;
        var password := b.password.value;
        var lookup := [LookUpPhone(phone)];
        if svc.phoneTaken then
          Outcome(Response(400, ErrorBody("Phone number already registered")), lookup)
        else
          var email := LoginEmail(phone);
          var created := lookup + [CreateUser(email, password)];
          match svc.createUser
          case CreateFailed(msg) => Outcome(Response(400, ErrorBody(msg)), created)
          case Created(id) =>
            var discount := Discount(profileType);
            var row := ProfileRow(id, phone, name, userType, profileType, discount, InitialStatus(userType));
            var inserted := created + [InsertProfile(row)];
            if svc.profileInsert.Some? then
              Outcome(Response(500, ErrorBody(svc.profileInsert.value)), inserted + [DeleteUser(id)])
            else
              var signedIn := inserted + [GenerateLink(email), SignIn(email, password)];
              match svc.signIn
              case SignInFailed(msg) => Outcome(Response(400, ErrorBody(msg)), signedIn)
              case SignedIn(token, refresh) =>
                Outcome(Response(200, UserBody(id, phone, name, userType, profileType, discount, token, refresh)),
                  signedIn)
  }

  /**
   * The account is created, its magic link generated and its sign-in made
   * with the login e-mail derived from the request's phone and with the
   * request's password.
   */
  lemma CallsUseLoginEmail(b: RegisterBody, svc: Services, a: Action)
    requires a in Register(false, Some(b), svc).actions
    ensures a.CreateUser? ==> Accepted(b) && a == CreateUser(LoginEmail(b.phone.value), b.password.value)
    ensures a.GenerateLink? ==> Accepted(b) && a == GenerateLink(LoginEmail(b.phone.value))
    ensures a.SignIn? ==> Accepted(b) && a == SignIn(LoginEmail(b.phone.value), b.password.value)
    ensures a.LookUpPhone? ==> Accepted(b) && a == LookUpPhone(b.phone.value)
  {
  }

  /**
   * Two spellings of one number, with and without a separator: the lookup
   * asks about two different phones, yet both requests create their account
   * under the same e-mail, so the second passes the phone check and then
   * collides in the auth service.
   */
  lemma SpellingsShareEmail(b1: RegisterBody, svc1: Services, b2: RegisterBody, svc2: Services,
                            pre: string, c: char, post: string, e1: string, p1: string, e2: string, p2: string)
    requires !IsDigit(c)
    requires b1.phone == Some(pre + post) && b2.phone == Some(pre + [c] + post)
    requires CreateUser(e1, p1) in Register(false, Some(b1), svc1).actions
    requires CreateUser(e2, p2) in Register(false, Some(b2), svc2).actions
    ensures LookUpPhone(pre + post) !in Register(false, Some(b2), svc2).actions
    ensures e1 == e2
  {
    CallsUseLoginEmail(b1, svc1, CreateUser(e1, p1));
    CallsUseLoginEmail(b2, svc2, CreateUser(e2, p2));
    SeparatorDoesNotChangeEmail(pre, c, post);
    forall a | a in Register(false, Some(b2), svc2).actions && a.LookUpPhone?
      ensures a != LookUpPhone(pre + post)
    {
      CallsUseLoginEmail(b2, svc2, a);
      assert |pre + [c] + post| != |pre + post|;
    }
  }

  /** An absent user type or profile type falls back to "customer" and "regular". */
  lemma DefaultsApply(phone: string, name: string, password: string, svc: Services)
    requires phone != "" && name != "" && password != ""
    requires !svc.phoneTaken && svc.createUser.Created? && svc.profileInsert.None? && svc.signIn.SignedIn?
    ensures var o := Register(false, Some(RegisterBody(Some(phone), Some(name), Some(password), None, None)), svc);
      && o.response.status == 200
      && o.response.body.userType == "customer" && o.response.body.profileType == "regular"
      && o.response.body.discountPercentage == 0
      && InsertProfile(ProfileRow(svc.createUser.userId, phone, name, "customer", "regular", 0, "active")) in o.actions
  {
  }

  /** A taken phone stops after the lookup: no account is created. */
  lemma TakenPhoneCreatesNothing(b: RegisterBody, svc: Services)
    requires !Missing(b.phone) && !Missing(b.name) && !Missing(b.password) && svc.phoneTaken
    ensures var o := Register(false, Some(b), svc);
      o.response == Response(400, ErrorBody("Phone number already registered"))
      && forall a :: a in o.actions ==> a.LookUpPhone?
  {
  }

  /** The request reached the auth service and created an account. */
  predicate CreatedAccount(o: Outcome, svc: Services) {
    svc.createUser.Created? && exists a :: a in o.actions && a.CreateUser?
  }

  /**
   * No request leaves an auth user without a profile: once an account is
   * created, its profile is inserted, and the account is deleted exactly
   * when that insert fails, as the last call, answering 500.
   */
  lemma NoUserWithoutProfile(isOptions: bool, body: Option<RegisterBody>, svc: Services)
    ensures var o := Register(isOptions, body, svc);
      CreatedAccount(o, svc) ==> exists row :: InsertProfile(row) in o.actions && row.id == svc.createUser.userId
    ensures var o := Register(isOptions, body, svc);
      CreatedAccount(o, svc) ==> (DeleteUser(svc.createUser.userId) in o.actions <==> svc.profileInsert.Some?)
    ensures var o := Register(isOptions, body, svc);
      svc.profileInsert.Some? && CreatedAccount(o, svc)
      ==> o.actions[|o.actions| - 1] == DeleteUser(svc.createUser.userId) && o.response.status == 500
  {
  }

  /** The stored row carries the discount and status rules for the request's types. */
  lemma StoredRowFollowsRules(b: RegisterBody, svc: Services, row: ProfileRow)
    requires InsertProfile(row) in Register(false, Some(b), svc).actions
    ensures row.discountPercentage == Discount(row.profileType)
    ensures row.status == InitialStatus(row.userType)
    ensures row.userType == b.userType.GetOr("customer") && row.profileType == b.profileType.GetOr("regular")
  {
  }
}
