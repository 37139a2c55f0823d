/** lib/auth.ts: the Credentials provider's `authorize`, the provider list built
    from the environment, and the `jwt` and `session` callbacks. */
module Auth {
  import opened Wrappers
  import opened Js
  import opened Bcrypt
  import opened Users

  /** The fields `authorize` hands to NextAuth, and that become the session claims. */
  datatype Identity = Identity(id: string, email: string, name: Option<string>, image: Option<string>)

  /** The submitted `credentials` object; `email` and `password` may be absent. */
  datatype Credentials = Credentials(email: Option<string>, password: Option<string>)

  /** `authorize` either returns an identity or throws an `Error` with a message. */
  datatype Outcome = Authorized(identity: Identity) | Rejected(message: string)

  /** `authorize`: the presence, lookup, password and compare checks in order, over a snapshot of the table. */
  function Authorize(users: Table, credentials: Option<Credentials>): (r: Outcome)
    ensures credentials.None? || !Truthy(credentials.value.email) || !Truthy(credentials.value.password)
      ==> r == Rejected("Please enter your email and password")
    ensures r.Authorized? <==>
      && credentials.Some?
      && Truthy(credentials.value.email) && Truthy(credentials.value.password)
      && credentials.value.email.value in users
      && users[credentials.value.email.value].password.Some?
      && Compare(credentials.value.password.value, users[credentials.value.email.value].password.value)
    ensures r.Authorized? ==>
      var u := users[credentials.value.email.value];
      r.identity == Identity(u.id, u.email, u.name, u.image)
  {
    if credentials.None? || !Truthy(credentials.value.email) || !Truthy(credentials.value.password) then
      Rejected("Please enter your email and password")
    else if credentials.value.email.value !in users then
      Rejected("No account found with this email")
    else
      var user := users[credentials.value.email.value];
      if user.password.None? then
        Rejected("Please sign in with the provider you used to register")
      else if !Compare(credentials.value.password.value, user.password.value) then
        Rejected("Invalid email or password")
      else
        Authorized(Identity(user.id, user.email, user.name, user.image))
  }

  /** The rejection for each way `authorize` can fail once both fields are present. */
  lemma AuthorizeFailures(users: Table, email: string, password: string)
    requires email != "" && password != ""
    ensures var r := Authorize(users, Some(Credentials(Some(email), Some(password))));
      && (email !in users ==> r == Rejected("No account found with this email"))
      && (email in users && users[email].password.None? ==>
            r == Rejected("Please sign in with the provider you used to register"))
      && (email in users && users[email].password.Some? && !Compare(password, users[email].password.value) ==>
            r == Rejected("Invalid email or password"))
  {
  }

  /** For an account whose stored digest is that of `password`, an attempt signs in
      exactly when it agrees with `password` on the 72 characters bcrypt reads: for
      passwords of at most 72 characters that is the password itself, while longer
      ones are also accepted with any other ending. */
  lemma {:induction false} AuthorizeExactlyThePassword(users: Table, email: string, password: string, attempt: string)
    requires email in users && users[email].password == Some(Hash(password))
    requires email != "" && attempt != ""
    ensures Authorize(users, Some(Credentials(Some(email), Some(attempt)))).Authorized? <==>
      Significant(attempt) == Significant(password)
    ensures |attempt| <= MaxPasswordLength && |password| <= MaxPasswordLength ==>
      (Authorize(users, Some(Credentials(Some(email), Some(attempt)))).Authorized? <==> attempt == password)
  {
    if Significant(attempt) == Significant(password) {
      assert Hash(attempt) == Hash(password);
      CompareHash(attempt);
    } else {
      CompareOther(password, attempt);
    }
  }

  // ---------------------------------------------------------------- providers

  datatype Provider =
    | CredentialsProvider
    | Google(clientId: string, clientSecret: string)
    | Facebook(clientId: string, clientSecret: string)

  /** `process.env[key]` is truthy: present and not empty. */
  predicate Configured(env: map<string, string>, key: string) {
    key in env && env[key] != ""
  }

  /** The module-level `providers` array: Credentials, then Google and Facebook
      pushed only when both of their variables are set. */
  method BuildProviders(env: map<string, string>) returns (providers: seq<Provider>)
    ensures |providers| >= 1 && providers[0] == CredentialsProvider
    ensures var google := Configured(env, "GOOGLE_CLIENT_ID") && Configured(env, "GOOGLE_CLIENT_SECRET");
      var facebook := Configured(env, "FACEBOOK_CLIENT_ID") && Configured(env, "FACEBOOK_CLIENT_SECRET");
      && |providers| == 1 + (if google then 1 else 0) + (if facebook then 1 else 0)
      && (google ==> providers[1] == Google(env["GOOGLE_CLIENT_ID"], env["GOOGLE_CLIENT_SECRET"]))
      && (facebook ==>
            providers[|providers| - 1] == Facebook(env["FACEBOOK_CLIENT_ID"], env["FACEBOOK_CLIENT_SECRET"]))
    ensures (exists p :: p in providers && p.Google?) <==>
      Configured(env, "GOOGLE_CLIENT_ID") && Configured(env, "GOOGLE_CLIENT_SECRET")
    ensures (exists p :: p in providers && p.Facebook?) <==>
      Configured(env, "FACEBOOK_CLIENT_ID") && Configured(env, "FACEBOOK_CLIENT_SECRET")
  {
    providers := [CredentialsProvider];
    if Configured(env, "GOOGLE_CLIENT_ID") && Configured(env, "GOOGLE_CLIENT_SECRET") {
      providers := providers + [Google(env["GOOGLE_CLIENT_ID"], env["GOOGLE_CLIENT_SECRET"])];
    }
    if Configured(env, "FACEBOOK_CLIENT_ID") && Configured(env, "FACEBOOK_CLIENT_SECRET") {
      providers := providers + [Facebook(env["FACEBOOK_CLIENT_ID"], env["FACEBOOK_CLIENT_SECRET"])];
    }
  }

  // ---------------------------------------------------------------- callbacks

  /** The decoded JWT. `sub` stands for the claims NextAuth sets itself. */
  class JwtToken {
    var id: Option<string>
    var email: Option<string>
    var name: Option<string>
    var image: Option<string>
    var sub: Option<string>

    constructor (sub: Option<string>)
      ensures this.sub == sub && id.None? && email.None? && name.None? && image.None?
    {
      this.sub := sub;
      id, email, name, image := None, None, None, None;
    }
  }

  class SessionUser {
    var id: Option<string>
    var email: Option<string>
    var name: Option<string>
    var image: Option<string>

    constructor ()
      ensures id.None? && email.None? && name.None? && image.None?
    {
      id, email, name, image := None, None, None, None;
    }
  }

  class Session {
    var user: SessionUser?
    var expires: string

    constructor (user: SessionUser?, expires: string)
      ensures this.user == user && this.expires == expires
    {
      this.user := user;
      this.expires := expires;
    }
  }

  /** The `jwt` callback: on sign-in (`user` present) the four identity claims are
      overwritten from `user`; otherwise the token is returned as it came. */
  method Jwt(token: JwtToken, user: Option<Identity>) returns (r: JwtToken)
    modifies token
    ensures r == token
    ensures user.None? ==> unchanged(token)
    ensures user.Some? ==>
      && token.id == Some(user.value.id) && token.email == Some(user.value.email)
      && token.name == user.value.name && token.image == user.value.image
      && token.sub == old(token.sub)
  {
    if user.Some? {
      token.id := Some(user.value.id);
      token.email := Some(user.value.email);
      token.name := user.value.name;
      token.image := user.value.image;
    }
    r := token;
  }

  /** The `session` callback: when the session has a `user` object, the four claims
      are copied onto it from the token (the `as string` casts change nothing at run
      time); otherwise the session is returned as it came. */
  method SessionCallback(session: Session, token: JwtToken) returns (r: Session)
    modifies if session.user == null then {} else {session.user}
    ensures r == session
    ensures session.user == null ==> unchanged(session)
    ensures session.user != null ==>
      && session.user.id == token.id && session.user.email == token.email
      && session.user.name == token.name && session.user.image == token.image
  {
    if session.user != null {
      session.user.id := token.id;
      session.user.email := token.email;
      session.user.name := token.name;
      session.user.image := token.image;
    }
    r := session;
  }

  /** Signing in with credentials and then reading the session shows the stored
      user's id, email, name and image. */
  method SignInFlow(users: Table, credentials: Credentials, token: JwtToken, session: Session)
    returns (r: Outcome)
    requires session.user != null
    modifies token, session.user
    ensures r == Authorize(users, Some(credentials))
    ensures r.Authorized? ==>
      var u := users[credentials.email.value];
      && session.user.id == Some(u.id) && session.user.email == Some(u.email)
      && session.user.name == u.name && session.user.image == u.image
  {
    r := Authorize(users, Some(credentials));
    if r.Authorized? {
      var t := Jwt(token, Some(r.identity));
      var s := SessionCallback(session, t);
    }
  }
}
