/**
 * The account handlers: POST /create-account, POST /login and GET /get-user,
 * over an in-memory users collection. Issuing the access token is not
 * modelled; the caller of GET /get-user is the `userId` the token carried.
 */
module Users {
  import opened Wrappers
  import opened Seqs
  import opened Records
  import opened Http

  /** `findOne({ email })`. */
  function FindByEmail(users: seq<User>, email: string): (r: Option<nat>)
    ensures r.Some? ==> r.value < |users| && users[r.value].email == email
    ensures r.None? ==> forall u :: u in users ==> u.email != email
  {
    IndexWhere(users, (u: User) => u.email == email)
  }

  /** `findOne({ _id: userId })`. */
  function FindById(users: seq<User>, userId: Id): (r: Option<nat>)
    ensures r.Some? ==> r.value < |users| && users[r.value].id == userId
    ensures r.None? ==> forall u :: u in users ==> u.id != userId
  {
    IndexWhere(users, (u: User) => u.id == userId)
  }

  class UserRegistry {
    var users: seq<User>
    var nextId: Id

    /** Identifiers are fresh and distinct, and no two users share an email. */
    ghost predicate Valid()
      reads this
    {
      (forall i :: 0 <= i < |users| ==> users[i].id < nextId) &&
      (forall i, j :: 0 <= i < j < |users| ==> users[i].id != users[j].id) &&
      (forall i, j :: 0 <= i < j < |users| ==> users[i].email != users[j].email)
    }

    constructor ()
      ensures Valid() && users == []
    {
      users, nextId := [], 0;
    }

    /** POST /create-account. */
    method CreateAccount(fullName: string, email: string, password: string) returns (r: Response)
      requires Valid()
      modifies this
      ensures Valid()
      ensures fullName == "" || email == "" || password == "" ==>
        r == Fail(400, AllFieldsRequired) && users == old(users)
      ensures fullName != "" && email != "" && password != "" &&
              (exists u :: u in old(users) && u.email == email) ==>
        r == Fail(400, "User already exists") && users == old(users)
      ensures fullName != "" && email != "" && password != "" &&
              (forall u :: u in old(users) ==> u.email != email) ==>
        users == old(users) + [User(old(nextId), fullName, email, Hash(password))] &&
        r == Response(201, false, "Registration Successful", Account(fullName, email))
    {
      if fullName == "" || email == "" || password == "" {
        return Fail(400, AllFieldsRequired);
      }
      if FindByEmail(users, email).Some? {
        return Fail(400, "User already exists");
      }
      var user := User(nextId, fullName, email, Hash(password));
      users := users + [user];
      nextId := nextId + 1;
      r := Response(201, false, "Registration Successful", Account(fullName, email));
    }

    /** POST /login; its failures carry no error flag, only a message. */
    method Login(email: string, password: string) returns (r: Response)
      requires Valid()
      ensures r.status == 200 <==>
        email != "" && password != "" &&
        exists u :: u in users && u.email == email && Compare(password, u.password)
      ensures r.status != 200 ==> r.status == 400 && !r.error && r.payload == Nothing
      ensures email == "" || password == "" ==> r.message == "Email and Password are required"
      ensures email != "" && password != "" && (forall u :: u in users ==> u.email != email) ==>
        r.message == "User not found"
      ensures email != "" && password != "" &&
              (exists u :: u in users && u.email == email && !Compare(password, u.password)) ==>
        r.message == "Invalid Credentials"
      ensures r.status == 200 ==>
        !r.error && r.message == "Login Successful" &&
        exists u :: u in users && u.email == email && r.payload == Account(u.fullName, u.email)
    {
      if email == "" || password == "" {
        return Response(400, false, "Email and Password are required", Nothing);
      }
      var found := FindByEmail(users, email);
      if found.None? {
        return Response(400, false, "User not found", Nothing);
      }
      var user := users[found.value];
      if !Compare(password, user.password) {
        return Response(400, false, "Invalid Credentials", Nothing);
      }
      r := Response(200, false, "Login Successful", Account(user.fullName, user.email));
    }

    /** GET /get-user for the authenticated `userId`; an unknown id is answered 401. */
    method GetUser(userId: Id) returns (r: Response)
      requires Valid()
      ensures (exists u :: u in users && u.id == userId) <==> r.status == 200
      ensures r.status == 200 ==> r.payload.Profile? && r.payload.user in users && r.payload.user.id == userId
      ensures r.status != 200 ==> r == Response(401, false, "Unauthorized", Nothing)
    {
      var found := FindById(users, userId);
      if found.None? {
        return Response(401, false, "Unauthorized", Nothing);
      }
      r := Response(200, false, "", Profile(users[found.value]));
    }
  }
}
