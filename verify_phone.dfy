/** app/api/auth/verify-phone/route.ts: `POST` with action 'send' stores a fresh
    OTP for the caller's phone; with action 'verify' it checks the OTP and makes
    the caller an ORGANIZER. Sending the SMS is not part of this model: its
    outcome is a parameter. */
module VerifyPhone {
  import opened Wrappers
  import opened Js
  import opened Users
  import Numbers
  import Sms
  import CheckRole

  /** The JSON body, parsed once: `{action, phone?, otp?}`. */
  datatype PhoneBody = PhoneBody(action: Option<string>, phone: Option<string>, otp: Option<string>)

  datatype Done = Done(message: string, role: Option<Role>)

  /** The `phoneVerificationExpiry` an OTP issued at `now` gets: ten minutes later. */
  function OtpExpiry(now: int): int {
    now + 10 * 60 * 1000
  }

  /** `findFirst({phone, phoneVerified: true, NOT: {email}})` finds somebody. */
  predicate PhoneClaimedByAnother(users: Table, phone: string, email: string) {
    exists e :: e in users && users[e].phone == Some(phone) && users[e].phoneVerified && users[e].email != email
  }

  /** The caller's own row never decides the check, whatever its phone and flag:
      only the other rows can claim a number. */
  lemma PhoneClaimIgnoresOwnRow(users: Table, phone: string, email: string, own: User)
    requires own.email == email
    ensures PhoneClaimedByAnother(users[email := own], phone, email) <==>
      PhoneClaimedByAnother(users - {email}, phone, email)
  {
    var updated, others := users[email := own], users - {email};
    if PhoneClaimedByAnother(updated, phone, email) {
      var e :| e in updated && updated[e].phone == Some(phone) && updated[e].phoneVerified && updated[e].email != email;
      assert e != email && e in others && others[e] == updated[e];
    }
    if PhoneClaimedByAnother(others, phone, email) {
      var e :| e in others && others[e].phone == Some(phone) && others[e].phoneVerified && others[e].email != email;
      assert e in updated && updated[e] == others[e];
    }
  }

  /** `POST`, reading the body once. `otpDraw` is the random draw behind
      `generateOTP()` and `smsDelivered` the outcome of `sendOTP`. */
  method Post(store: UserStore, sessionEmail: Option<string>, body: PhoneBody,
              otpDraw: nat, now: int, smsDelivered: bool)
    returns (resp: Reply<Done>)
    requires store.Valid()
    requires otpDraw < 900000
    modifies store
    ensures store.Valid()
    ensures resp.status != 200 && store.users != old(store.users) ==>
      resp == Err(500, "Failed to send OTP. Please try again.")
    // unauthenticated
    ensures !Truthy(sessionEmail) ==>
      resp == Err(401, "Unauthorized") && store.users == old(store.users)
    // neither 'send' nor 'verify'
    ensures Truthy(sessionEmail) && body.action != Some("send") && body.action != Some("verify") ==>
      resp == Err(400, "Invalid action") && store.users == old(store.users)
    // 'send'
    ensures Truthy(sessionEmail) && body.action == Some("send") && !Truthy(body.phone) ==>
      resp == Err(400, "Phone number is required") && store.users == old(store.users)
    ensures Truthy(sessionEmail) && body.action == Some("send") && Truthy(body.phone) ==>
      var me, phone := sessionEmail.value, Sms.FormatPhoneNumber(body.phone.value);
      if PhoneClaimedByAnother(old(store.users), phone, me) then
        resp == Err(400, "This phone number is already verified by another account") && store.users == old(store.users)
      else if me !in old(store.users) then
        resp == Err(500, "Failed to process phone verification") && store.users == old(store.users)
      else
        && store.users == old(store.users)[me := old(store.users)[me].(
             phone := Some(phone),
             phoneVerificationToken := Some(Sms.GenerateOtp(otpDraw)),
             phoneVerificationExpiry := Some(OtpExpiry(now)))]
        && resp == if smsDelivered then Ok(200, Done("OTP sent successfully!", None))
                   else Err(500, "Failed to send OTP. Please try again.")
    // 'verify'
    ensures Truthy(sessionEmail) && body.action == Some("verify") && !Truthy(body.otp) ==>
      resp == Err(400, "OTP is required") && store.users == old(store.users)
    ensures Truthy(sessionEmail) && body.action == Some("verify") && Truthy(body.otp) ==>
      var me := sessionEmail.value;
      if me !in old(store.users) then
        resp == Err(404, "User not found") && store.users == old(store.users)
      else
        var u := old(store.users)[me];
        if u.phoneVerificationToken != body.otp then
          resp == Err(400, "Invalid OTP") && store.users == old(store.users)
        else if Expired(u.phoneVerificationExpiry, now) then
          resp == Err(400, "OTP has expired. Please request a new one.") && store.users == old(store.users)
        else
          && resp == Ok(200, Done("Phone verified successfully! You are now an organizer.", Some(ORGANIZER)))
          && store.users == old(store.users)[me := u.(phoneVerified := true,
                                                       phoneVerificationToken := None,
                                                       phoneVerificationExpiry := None,
                                                       role := ORGANIZER)]
    // what the caller's next role check sees after a successful verification
    ensures resp.Ok? && body.action == Some("verify") ==>
      CheckRole.Get(store.users, sessionEmail) ==
      Ok(200, CheckRole.RoleStatus(ORGANIZER, old(store.users)[sessionEmail.value].emailVerified.Some?, true))
  {
    if !Truthy(sessionEmail) {
      return Err(401, "Unauthorized");
    }
    var me := sessionEmail.value;
    if body.action == Some("send") {
      if !Truthy(body.phone) {
        return Err(400, "Phone number is required");
      }
      var formatted := Sms.FormatPhoneNumber(body.phone.value);
      if PhoneClaimedByAnother(store.users, formatted, me) {
        return Err(400, "This phone number is already verified by another account");
      }
      var otp := Sms.GenerateOtp(otpDraw);
      var expiry := OtpExpiry(now);
      if me !in store.users {
        // prisma.user.update finds no record to update and throws
        return Err(500, "Failed to process phone verification");
      }
      var user := store.users[me];
      ReplaceRow(store.users, me, user.(phone := Some(formatted), phoneVerificationToken := Some(otp),
                                        phoneVerificationExpiry := Some(expiry)));
      store.users := store.users[me := user.(phone := Some(formatted),
                                             phoneVerificationToken := Some(otp),
                                             phoneVerificationExpiry := Some(expiry))];
      if !smsDelivered {
        return Err(500, "Failed to send OTP. Please try again.");
      }
      return Ok(200, Done("OTP sent successfully!", None));
    }
    if body.action == Some("verify") {
      if !Truthy(body.otp) {
        return Err(400, "OTP is required");
      }
      if me !in store.users {
        return Err(404, "User not found");
      }
      var user := store.users[me];
      if user.phoneVerificationToken != body.otp {
        return Err(400, "Invalid OTP");
      }
      if Expired(user.phoneVerificationExpiry, now) {
        return Err(400, "OTP has expired. Please request a new one.");
      }
      ReplaceRow(store.users, me, user.(phoneVerified := true, phoneVerificationToken := None,
                                        phoneVerificationExpiry := None, role := ORGANIZER));
      store.users := store.users[me := user.(phoneVerified := true,
                                             phoneVerificationToken := None,
                                             phoneVerificationExpiry := None,
                                             role := ORGANIZER)];
      return Ok(200, Done("Phone verified successfully! You are now an organizer.", Some(ORGANIZER)));
    }
    return Err(400, "Invalid action");
  }

  /** Asking for a code and typing it back in before it expires makes the caller
      an organizer with a verified phone. */
  method SendThenVerify(store: UserStore, me: string, phone: string, otpDraw: nat, now: int, later: int)
    returns (sent: Reply<Done>, verified: Reply<Done>)
    requires store.Valid()
    requires otpDraw < 900000
    requires me != "" && phone != "" && me in store.users
    requires !PhoneClaimedByAnother(store.users, Sms.FormatPhoneNumber(phone), me)
    requires later <= OtpExpiry(now)
    modifies store
    ensures sent == Ok(200, Done("OTP sent successfully!", None))
    ensures verified.Ok? && me in store.users
    ensures var u := store.users[me];
      u.phoneVerified && u.role == ORGANIZER && u.phone == Some(Sms.FormatPhoneNumber(phone)) &&
      u.phoneVerificationToken.None? && u.phoneVerificationExpiry.None?
  {
    sent := Post(store, Some(me), PhoneBody(Some("send"), Some(phone), None), otpDraw, now, true);
    var otp := Sms.GenerateOtp(otpDraw);
    verified := Post(store, Some(me), PhoneBody(Some("verify"), None, Some(otp)), 0, later, true);
  }

  /** A second 'send' replaces the code: the earlier code is then rejected
      (unless the two draws happen to coincide). */
  method NewerOtpReplacesOlder(store: UserStore, me: string, phone: string, draw1: nat, draw2: nat, now: int)
    returns (stale: Reply<Done>)
    requires store.Valid()
    requires draw1 < 900000 && draw2 < 900000 && draw1 != draw2
    requires me != "" && phone != "" && me in store.users
    requires !PhoneClaimedByAnother(store.users, Sms.FormatPhoneNumber(phone), me)
    modifies store
    ensures stale == Err(400, "Invalid OTP")
  {
    ghost var formatted, before := Sms.FormatPhoneNumber(phone), store.users;
    var first := Post(store, Some(me), PhoneBody(Some("send"), Some(phone), None), draw1, now, true);
    assert store.users - {me} == before - {me};
    PhoneClaimIgnoresOwnRow(before, formatted, me, before[me]);
    assert before[me := before[me]] == before;
    PhoneClaimIgnoresOwnRow(before, formatted, me, store.users[me]);
    assert store.users == before[me := store.users[me]];
    var second := Post(store, Some(me), PhoneBody(Some("send"), Some(phone), None), draw2, now, true);
    assert store.users[me].phoneVerificationToken == Some(Sms.GenerateOtp(draw2));
    assert Sms.GenerateOtp(draw1) != Sms.GenerateOtp(draw2) by {
      assert Numbers.ParseDigits(Sms.GenerateOtp(draw1)) != Numbers.ParseDigits(Sms.GenerateOtp(draw2));
    }
    stale := Post(store, Some(me), PhoneBody(Some("verify"), None, Some(Sms.GenerateOtp(draw1))), 0, now, true);
  }

  // ---------------------------------------------------------------- as written

  /** A Fetch API request: its body can be read once. */
  datatype Request = Request(json: PhoneBody, bodyUsed: bool)

  /** `request.json()`: the parsed body and the request afterwards; None when
      the body was already consumed (the promise rejects with a TypeError). */
  function ReadJson(request: Request): (r: (Option<PhoneBody>, Request))
    ensures r.1.bodyUsed && r.1.json == request.json
    ensures r.0.Some? <==> !request.bodyUsed
    ensures r.0.Some? ==> r.0.value == request.json
  {
    if request.bodyUsed then (None, request) else (Some(request.json), request.(bodyUsed := true))
  }

  /** The handler as written (app/api/auth/verify-phone/route.ts:7-89), up to where
      the 'verify' branch has read its `otp`: the body is read once after the
      session check (route.ts:18) and again inside the 'verify' branch (route.ts:82).
      A rejected read throws, and the catch block answers 500. None means the
      handler goes on: into the other actions, or past the `otp` check with the
      `otp` it read. */
  function VerifyPrefixAsWritten(sessionEmail: Option<string>, request: Request): (r: Option<Reply<Done>>)
    ensures !Truthy(sessionEmail) ==> r == Some(Err(401, "Unauthorized"))
    ensures Truthy(sessionEmail) && request.bodyUsed ==> r == Some(Err(500, "Failed to process phone verification"))
    ensures r.Some? ==> r.value.Err?
    ensures r.None? ==> Truthy(sessionEmail) && request.json.action != Some("verify")
  {
    if !Truthy(sessionEmail) then Some(Err(401, "Unauthorized"))
    else
      var (first, afterFirst) := ReadJson(request);
      if first.None? then Some(Err(500, "Failed to process phone verification"))
      else if first.value.action != Some("verify") then None
      else
        match ReadJson(afterFirst).0
        case None => Some(Err(500, "Failed to process phone verification"))
        case Some(again) => if !Truthy(again.otp) then Some(Err(400, "OTP is required")) else None
  }

  /** As written, an authenticated 'verify' request always ends in 500, however
      right its code is; the corrected `Post` upgrades the same caller. */
  lemma {:induction false} VerifyAsWrittenAlwaysFails(sessionEmail: Option<string>, body: PhoneBody)
    requires Truthy(sessionEmail) && body.action == Some("verify")
    ensures VerifyPrefixAsWritten(sessionEmail, Request(body, false)) ==
      Some(Err(500, "Failed to process phone verification"))
  {
    var (first, afterFirst) := ReadJson(Request(body, false));
    assert afterFirst.bodyUsed;
  }

  /** The concrete request: the caller types back exactly the stored code. */
  lemma VerifyAsWrittenExample()
    ensures VerifyPrefixAsWritten(Some("a@x.com"), Request(PhoneBody(Some("verify"), None, Some("123456")), false)) ==
      Some(Err(500, "Failed to process phone verification"))
  {
    VerifyAsWrittenAlwaysFails(Some("a@x.com"), PhoneBody(Some("verify"), None, Some("123456")));
  }
}
