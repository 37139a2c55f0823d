/** app/api/auth/verify-email/route.ts: `POST` consumes an email-verification
    token, `GET` issues a new one. Delivery through Resend is not part of this
    model; its outcome is a parameter that the route ignores. */
module VerifyEmail {
  import opened Wrappers
  import opened Js
  import opened Users
  import Hex

  datatype Done = Done(message: string)

  /** The `emailVerificationExpiry` a token issued at `now` gets: 24 hours later. */
  function TokenExpiry(now: int): int {
    now + 24 * 60 * 60 * 1000
  }

  /** `POST`: look the token up (a unique column), reject it when expired, and
      otherwise mark the email verified and clear the token in one write. */
  method Post(store: UserStore, token: Option<string>, now: int) returns (resp: Reply<Done>)
    requires store.Valid()
    modifies store
    ensures store.Valid()
    ensures !Truthy(token) ==>
      resp == Err(400, "Verification token is required") && store.users == old(store.users)
    ensures Truthy(token) && (forall e :: e in old(store.users) ==> !HoldsEmailToken(old(store.users)[e], token.value)) ==>
      resp == Err(400, "Invalid verification token") && store.users == old(store.users)
    ensures Truthy(token) ==> forall e :: e in old(store.users) && HoldsEmailToken(old(store.users)[e], token.value) ==>
      var u := old(store.users)[e];
      if Expired(u.emailVerificationExpiry, now) then
        resp == Err(400, "Verification token has expired. Please request a new one.") && store.users == old(store.users)
      else
        && resp == Ok(200, Done("Email verified successfully!"))
        && store.users == old(store.users)[e := u.(emailVerified := Some(now),
                                                   emailVerificationToken := None,
                                                   emailVerificationExpiry := None)]
    ensures resp.Ok? ==> forall e :: e in store.users ==> !HoldsEmailToken(store.users[e], token.value)
  {
    if !Truthy(token) {
      return Err(400, "Verification token is required");
    }
    var t := token.value;
    if !exists e :: e in store.users && HoldsEmailToken(store.users[e], t) {
      return Err(400, "Invalid verification token");
    }
    var e :| e in store.users && HoldsEmailToken(store.users[e], t);
    var user := store.users[e];
    if Expired(user.emailVerificationExpiry, now) {
      return Err(400, "Verification token has expired. Please request a new one.");
    }
    ReplaceRow(store.users, e, user.(emailVerified := Some(now), emailVerificationToken := None,
                                     emailVerificationExpiry := None));
    store.users := store.users[e := user.(emailVerified := Some(now),
                                          emailVerificationToken := None,
                                          emailVerificationExpiry := None)];
    resp := Ok(200, Done("Email verified successfully!"));
  }

  /** `GET` (resend). `randomBytes` are the 32 bytes `crypto.randomBytes(32)`
      returns. The write fails on the unique token column if another user already
      holds the new token; the catch block turns that into 500. */
  method Get(store: UserStore, email: Option<string>, randomBytes: seq<Hex.Byte>, now: int, delivered: bool)
    returns (resp: Reply<Done>)
    requires store.Valid()
    requires |randomBytes| == 32
    modifies store
    ensures store.Valid()
    ensures !Truthy(email) ==>
      resp == Err(400, "Email is required") && store.users == old(store.users)
    ensures Truthy(email) && email.value !in old(store.users) ==>
      resp == Err(404, "User not found") && store.users == old(store.users)
    ensures Truthy(email) && email.value in old(store.users) && old(store.users)[email.value].emailVerified.Some? ==>
      resp == Err(400, "Email is already verified") && store.users == old(store.users)
    ensures resp.Ok? ==> resp == Ok(200, Done("Verification email sent!"))
    ensures Truthy(email) && email.value in old(store.users) && old(store.users)[email.value].emailVerified.None? ==>
      var issued := Hex.Encode(randomBytes);
      var u := old(store.users)[email.value];
      if exists e :: e in old(store.users) && e != email.value && HoldsEmailToken(old(store.users)[e], issued) then
        resp == Err(500, "Failed to resend verification email") && store.users == old(store.users)
      else
        && resp.Ok?
        && store.users == old(store.users)[email.value := u.(emailVerificationToken := Some(issued),
                                                             emailVerificationExpiry := Some(TokenExpiry(now)))]
    ensures resp.Ok? ==> |store.users[email.value].emailVerificationToken.value| == 64
    ensures resp.Ok? ==>
      var previous := old(store.users)[email.value].emailVerificationToken;
      previous.Some? && previous != store.users[email.value].emailVerificationToken ==>
        forall e :: e in store.users ==> store.users[e].emailVerificationToken != previous
  {
    if !Truthy(email) {
      return Err(400, "Email is required");
    }
    var address := email.value;
    if address !in store.users {
      return Err(404, "User not found");
    }
    var user := store.users[address];
    if user.emailVerified.Some? {
      return Err(400, "Email is already verified");
    }
    var newToken := Hex.Encode(randomBytes);
    if exists e :: e in store.users && e != address && HoldsEmailToken(store.users[e], newToken) {
      return Err(500, "Failed to resend verification email");
    }
    ReplaceRow(store.users, address, user.(emailVerificationToken := Some(newToken),
                                           emailVerificationExpiry := Some(TokenExpiry(now))));
    store.users := store.users[address := user.(emailVerificationToken := Some(newToken),
                                                emailVerificationExpiry := Some(TokenExpiry(now)))];
    // sendVerificationEmail reports failure in its result, which the route ignores.
    resp := Ok(200, Done("Verification email sent!"));
  }

  /** A token that verified an email cannot be used a second time. */
  method ReplayRejected(store: UserStore, token: string, now: int, later: int)
    returns (first: Reply<Done>, second: Reply<Done>)
    requires store.Valid()
    modifies store
    ensures first.Ok? ==> second == Err(400, "Invalid verification token")
  {
    first := Post(store, Some(token), now);
    second := Post(store, Some(token), later);
  }

  /** After a resend, the token sent before it no longer verifies anything. */
  method ResendInvalidatesPrevious(store: UserStore, email: string, randomBytes: seq<Hex.Byte>, now: int, later: int)
    returns (resent: Reply<Done>, stale: Reply<Done>)
    requires store.Valid()
    requires |randomBytes| == 32
    requires email in store.users && store.users[email].emailVerificationToken.Some?
    requires store.users[email].emailVerificationToken.value != ""
    requires store.users[email].emailVerificationToken != Some(Hex.Encode(randomBytes))
    modifies store
    ensures resent.Ok? ==> stale == Err(400, "Invalid verification token")
  {
    var previous := store.users[email].emailVerificationToken.value;
    resent := Get(store, Some(email), randomBytes, now, true);
    stale := Post(store, Some(previous), later);
  }
}
