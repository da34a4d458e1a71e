/**
 * The server-side signup endpoint: validate the JSON body, create a confirmed
 * user with administrator rights, insert the profile row, and delete the user
 * again when the profile cannot be stored.
 */
module SignupRoute {
  import opened Wrappers
  import opened Json

  datatype UserRecord = UserRecord(id: nat, email: Value, password: Value, emailConfirmed: bool, fullName: Value)
  datatype ProfileRow = ProfileRow(id: nat, username: Value, fullName: Value)

  datatype ResponseBody = ErrorBody(message: string) | SuccessBody(user: UserRecord)
  datatype Response = Response(status: int, body: ResponseBody)

  /** How the user-creation call turns out. */
  datatype CreateAnswer =
    | CreateRejected(message: string)
    | CreateNoUser
    | CreateThrew(message: string)
    | CreateAccepted

  const MissingFieldsMessage := "Missing required fields"
  const NoUserMessage := "Failed to create user"

  /** The destructured fields `email`, `password`, `username` and `fullName` of a parsed body. */
  function Field(body: Value, key: string): (v: Value)
    requires !body.Null? && !body.Undefined?
    ensures !body.Obj? ==> v == Undefined
  {
    if body.Obj? then Get(body.fields, key) else Undefined
  }

  /** `!email || !password || !username`; `fullName` is optional. */
  predicate MissingRequired(body: Value)
    requires !body.Null? && !body.Undefined?
    ensures !MissingRequired(body) ==>
      body.Obj? && "email" in body.fields && "password" in body.fields && "username" in body.fields
  {
    !Truthy(Field(body, "email")) || !Truthy(Field(body, "password")) || !Truthy(Field(body, "username"))
  }

  /** The administrator's view of the auth users and the profiles table. */
  class AdminStore {
    var users: map<nat, UserRecord>
    var profiles: map<nat, ProfileRow>
    var nextId: nat

    /** Every user id was handed out before `nextId`, so new ids are fresh. */
    ghost predicate Valid()
      reads this
    {
      forall id :: id in users ==> id < nextId
    }

    constructor ()
      ensures Valid() && users == map[] && profiles == map[]
    {
      users := map[];
      profiles := map[];
      nextId := 0;
    }

    /** `auth.admin.createUser` for an accepted request: a fresh, confirmed user. */
    method CreateUser(email: Value, password: Value, fullName: Value) returns (user: UserRecord)
      requires Valid()
      modifies this`users, this`nextId
      ensures Valid()
      ensures user == UserRecord(old(nextId), email, password, true, fullName)
      ensures user.id !in old(users) && users == old(users)[user.id := user]
    {
      user := UserRecord(nextId, email, password, true, fullName);
      users := users[nextId := user];
      nextId := nextId + 1;
    }

    /** Inserting a profile row; `failure` is the store's error, if any. */
    method InsertProfile(row: ProfileRow, failure: Option<string>)
      modifies this`profiles
      ensures profiles == if failure.None? then old(profiles)[row.id := row] else old(profiles)
    {
      if failure.None? {
        profiles := profiles[row.id := row];
      }
    }

    /** `auth.admin.deleteUser`. */
    method DeleteUser(id: nat)
      requires Valid()
      modifies this`users
      ensures Valid() && users == old(users) - {id}
    {
      users := users - {id};
    }
  }

  /**
   * `POST`. `body` is the parsed JSON (`None` when parsing threw, with
   * `thrownMessage`), `create` is how user creation turns out, and
   * `profileError` is the profile insert's error, if any.
   */
  method Post(store: AdminStore, body: Option<Value>, thrownMessage: string,
              create: CreateAnswer, profileError: Option<string>) returns (response: Response)
    requires store.Valid()
    modifies store
    ensures store.Valid()
    ensures body.None? ==> response == Response(500, ErrorBody(thrownMessage))
    ensures body.Some? && (body.value.Null? || body.value.Undefined?) ==> response == Response(500, ErrorBody(thrownMessage))
    ensures body.Some? && !body.value.Null? && !body.value.Undefined? && MissingRequired(body.value) ==>
      response == Response(400, ErrorBody(MissingFieldsMessage))
    ensures body.Some? && !body.value.Null? && !body.value.Undefined? && !MissingRequired(body.value) ==>
      && (create.CreateRejected? ==> response == Response(400, ErrorBody(create.message)))
      && (create.CreateNoUser? ==> response == Response(500, ErrorBody(NoUserMessage)))
      && (create.CreateThrew? ==> response == Response(500, ErrorBody(create.message)))
      && (create.CreateAccepted? && profileError.Some? ==> response == Response(500, ErrorBody(profileError.value)))
    ensures response.status == 200 <==>
      body.Some? && !body.value.Null? && !body.value.Undefined? && !MissingRequired(body.value)
      && create.CreateAccepted? && profileError.None?
    ensures response.status == 200 ==>
      var b := body.value;
      var user := UserRecord(old(store.nextId), Field(b, "email"), Field(b, "password"), true, Field(b, "fullName"));
      && response.body == SuccessBody(user)
      && store.users == old(store.users)[user.id := user]
      && store.profiles == old(store.profiles)[user.id := ProfileRow(user.id, Field(b, "username"), Field(b, "fullName"))]
    ensures response.status != 200 ==> store.users == old(store.users) && store.profiles == old(store.profiles)
    ensures forall id :: id in store.users && id !in old(store.users) ==> id in store.profiles
  {
    if body.None? || body.value.Null? || body.value.Undefined? {
      return Response(500, ErrorBody(thrownMessage));
    }
    var b := body.value;
    var email, password, username, fullName := Field(b, "email"), Field(b, "password"), Field(b, "username"), Field(b, "fullName");

    if !Truthy(email) || !Truthy(password) || !Truthy(username) {
      return Response(400, ErrorBody(MissingFieldsMessage));
    }

    match create {
      case CreateRejected(message) =>
        return Response(400, ErrorBody(message));
      case CreateNoUser =>
        return Response(500, ErrorBody(NoUserMessage));
      case CreateThrew(message) =>
        return Response(500, ErrorBody(message));
      case CreateAccepted =>
    }

    var user := store.CreateUser(email, password, fullName);
    store.InsertProfile(ProfileRow(user.id, username, fullName), profileError);

    if profileError.Some? {
      store.DeleteUser(user.id);
      assert store.users == old(store.users);
      return Response(500, ErrorBody(profileError.value));
    }

    response := Response(200, SuccessBody(user));
  }
}
