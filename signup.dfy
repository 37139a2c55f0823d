/** app/api/auth/signup/route.ts: `POST` creates a credentials account. */
module Signup {
  import opened Wrappers
  import opened Js
  import opened Bcrypt
  import opened Users
  import Auth

  /** The JSON body; any field may be missing. */
  datatype SignupBody = SignupBody(name: Option<string>, email: Option<string>, password: Option<string>)

  /** The `user` object of the 201 response: there is no password field. */
  datatype UserSummary = UserSummary(id: string, name: Option<string>, email: string, role: Role)

  datatype Created = Created(message: string, user: UserSummary)

  /** `email.split('@')[0]`. */
  function LocalPart(email: string): (r: string)
    ensures |r| <= |email| && r == email[..|r|]
    ensures '@' !in r
    ensures '@' in email ==> email[|r|] == '@'
    ensures '@' !in email ==> r == email
  {
    if email == [] || email[0] == '@' then [] else [email[0]] + LocalPart(email[1..])
  }

  /** The row `prisma.user.create` inserts; columns not given take
      their schema defaults. */
  function NewUser(id: string, name: string, email: string, password: string): User {
    User(id, email, Some(name), None, Some(Hash(password)), USER,
         None, None, None, None, false, None, None)
  }

  /** `POST`. `id` is the value the database's default generator would give the
      new row. A collision with an existing id violates a unique constraint, which
      the catch block reports as an existing email. */
  method Post(store: UserStore, body: SignupBody, id: string) returns (resp: Reply<Created>)
    requires store.Valid()
    modifies store
    ensures store.Valid()
    ensures !Truthy(body.email) || !Truthy(body.password) ==>
      resp == Err(400, "Email and Password are required") && store.users == old(store.users)
    ensures Truthy(body.email) && Truthy(body.password) && |body.password.value| < 6 ==>
      resp == Err(400, "Password must be at least 6 characters") && store.users == old(store.users)
    ensures (&& Truthy(body.email) && Truthy(body.password) && |body.password.value| >= 6
             && (body.email.value in old(store.users) || exists e :: e in old(store.users) && old(store.users)[e].id == id))
      ==> resp == Err(400, "User with this email already exists") && store.users == old(store.users)
    ensures resp.Ok? <==>
      && Truthy(body.email) && Truthy(body.password) && |body.password.value| >= 6
      && body.email.value !in old(store.users)
      && forall e :: e in old(store.users) ==> old(store.users)[e].id != id
    ensures resp.Ok? ==>
      var email, name := body.email.value, if Truthy(body.name) then body.name.value else LocalPart(body.email.value);
      && resp == Ok(201, Created("User created successfully", UserSummary(id, Some(name), email, USER)))
      && store.users == old(store.users)[email := NewUser(id, name, email, body.password.value)]
      && |store.users| == |old(store.users)| + 1
    ensures resp.Ok? ==>
      Auth.Authorize(store.users, Some(Auth.Credentials(body.email, body.password))).Authorized?
  {
    if !Truthy(body.email) || !Truthy(body.password) {
      return Err(400, "Email and Password are required");
    }
    var email, password := body.email.value, body.password.value;
    if |password| < 6 {
      return Err(400, "Password must be at least 6 characters");
    }
    if email in store.users {
      return Err(400, "User with this email already exists");
    }
    if exists e :: e in store.users && store.users[e].id == id {
      return Err(400, "User with this email already exists");
    }
    var name := if Truthy(body.name) then body.name.value else LocalPart(email);
    var user := NewUser(id, name, email, password);
    InsertRow(store.users, email, user);
    store.users := store.users[email := user];
    CompareHash(password);
    resp := Ok(201, Created("User created successfully", UserSummary(user.id, user.name, user.email, user.role)));
  }

  /** Signing up twice with the same email: the second attempt is rejected and
      the table keeps the first account only. */
  method SignupTwice(store: UserStore, body: SignupBody, id1: string, id2: string)
    returns (first: Reply<Created>, second: Reply<Created>)
    requires store.Valid()
    modifies store
    ensures first.Ok? ==> second == Err(400, "User with this email already exists")
    ensures first.Ok? ==> store.Valid() && |store.users| == |old(store.users)| + 1
  {
    first := Post(store, body, id1);
    second := Post(store, body, id2);
  }
}
