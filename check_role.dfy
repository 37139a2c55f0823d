/** app/api/auth/check-role/route.ts: `GET` reports the caller's role and
    verification flags without writing anything. */
module CheckRole {
  import opened Wrappers
  import opened Js
  import opened Users

  datatype RoleStatus = RoleStatus(role: Role, emailVerified: bool, phoneVerified: bool)

  /** `GET` over a snapshot of the table; `sessionEmail` is `session?.user?.email`. */
  function Get(users: Table, sessionEmail: Option<string>): (r: Reply<RoleStatus>)
    ensures !Truthy(sessionEmail) <==> r == Err(401, "Unauthorized")
    ensures Truthy(sessionEmail) && sessionEmail.value !in users <==> r == Err(404, "User not found")
    ensures r.Ok? <==> Truthy(sessionEmail) && sessionEmail.value in users
    ensures r.Ok? ==>
      var u := users[sessionEmail.value];
      && r.status == 200
      && r.value.role == u.role
      && (r.value.emailVerified <==> u.emailVerified.Some?)
      && r.value.phoneVerified == u.phoneVerified
  {
    if !Truthy(sessionEmail) then
      Err(401, "Unauthorized")
    else if sessionEmail.value !in users then
      Err(404, "User not found")
    else
      var user := users[sessionEmail.value];
      Ok(200, RoleStatus(user.role, user.emailVerified.Some?, user.phoneVerified))
  }

  /** In a well-formed table a caller reported as phone-verified is never a plain USER. */
  lemma PhoneVerifiedCallerIsNotUser(users: Table, sessionEmail: Option<string>)
    requires WellFormed(users)
    requires Get(users, sessionEmail).Ok? && Get(users, sessionEmail).value.phoneVerified
    ensures Get(users, sessionEmail).value.role != USER
  {
    assert VerifiedPhoneIsOrganizer(users);
  }
}
