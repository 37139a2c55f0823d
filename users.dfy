/** The user table that every auth route reads and writes through Prisma, with
    the facts the routes rely on and keep. Timestamps are milliseconds. */
module Users {
  import opened Wrappers
  import opened Bcrypt

  datatype Role = USER | ORGANIZER | ADMIN

  /** One row of the `User` table, with the fields the routes use. */
  datatype User = User(
    id: string,
    email: string,
    name: Option<string>,
    image: Option<string>,
    password: Option<Digest>,
    role: Role,
    emailVerified: Option<int>,
    emailVerificationToken: Option<string>,
    emailVerificationExpiry: Option<int>,
    phone: Option<string>,
    phoneVerified: bool,
    phoneVerificationToken: Option<string>,
    phoneVerificationExpiry: Option<int>)

  /** The table, keyed by the unique `email` column. */
  type Table = map<string, User>

  /** `expiry && expiry < now`: a null expiry never expires, and the expiry instant itself still passes. */
  predicate Expired(expiry: Option<int>, now: int) {
    expiry.Some? && expiry.value < now
  }

  predicate HoldsEmailToken(u: User, token: string) {
    u.emailVerificationToken == Some(token)
  }

  ghost predicate KeyedByEmail(t: Table) {
    forall e :: e in t ==> t[e].email == e
  }

  ghost predicate UniqueIds(t: Table) {
    forall e1, e2 :: e1 in t && e2 in t && t[e1].id == t[e2].id ==> e1 == e2
  }

  /** `emailVerificationToken` is a unique column: `findUnique` finds at most one holder. */
  ghost predicate UniqueEmailTokens(t: Table) {
    forall e1, e2 ::
      (e1 in t && e2 in t && t[e1].emailVerificationToken.Some? &&
       t[e1].emailVerificationToken == t[e2].emailVerificationToken) ==> e1 == e2
  }

  /** A verified phone comes with a role above USER: the one write that sets
      `phoneVerified` also sets the role. */
  ghost predicate VerifiedPhoneIsOrganizer(t: Table) {
    forall e :: e in t && t[e].phoneVerified ==> t[e].role != USER
  }

  ghost predicate WellFormed(t: Table) {
    KeyedByEmail(t) && UniqueIds(t) && UniqueEmailTokens(t) && VerifiedPhoneIsOrganizer(t)
  }

  /** An update of one row that keeps its email and id, takes only a token nobody
      else holds, and pairs a verified phone with a role above USER keeps the table
      well formed. */
  lemma ReplaceRow(t: Table, e: string, u: User)
    requires WellFormed(t) && e in t
    requires u.email == e && u.id == t[e].id
    requires u.emailVerificationToken.Some? ==>
      forall e2 :: e2 in t && e2 != e ==> t[e2].emailVerificationToken != u.emailVerificationToken
    requires u.phoneVerified ==> u.role != USER
    ensures WellFormed(t[e := u])
  {
  }

  /** Inserting a row under a new email, with a new id, no email token and no
      verified phone keeps the table well formed. */
  lemma InsertRow(t: Table, e: string, u: User)
    requires WellFormed(t) && e !in t
    requires u.email == e && forall e2 :: e2 in t ==> t[e2].id != u.id
    requires u.emailVerificationToken.None? && !u.phoneVerified
    ensures WellFormed(t[e := u])
    ensures |t[e := u]| == |t| + 1
  {
  }

  /** The database behind the Prisma client. */
  class UserStore {
    var users: Table

    ghost predicate Valid()
      reads this
    {
      WellFormed(users)
    }

    constructor ()
      ensures Valid() && users == map[]
    {
      users := map[];
    }
  }
}
