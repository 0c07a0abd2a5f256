/** The records of the five tables, the idealised hashers, and the errors a caller can see. */
module Domain {

  datatype Option<+T> = None | Some(value: T)

  /** The error types of the service; messages are dropped, the kind is kept. */
  datatype Error = Validation | Unauthorized | NotFound | Conflict | Internal

  datatype Result<+T> = Ok(value: T) | Err(error: Error)

  /** An instant or a duration, in nanoseconds; instants count from the Unix epoch. */
  type Time = int

  const SECOND: Time := 1_000_000_000
  const DAY: Time := 86_400 * SECOND

  /** What a bcrypt column holds: the empty string of an OAuth-only account, or the hash of a text. */
  datatype Digest = Blank | Bcrypt(plain: string)

  /** Idealised bcrypt: a digest verifies exactly the text it was made from. */
  predicate Verify(digest: Digest, text: string) {
    digest == Bcrypt(text)
  }

  /** Idealised SHA-256: a digest determines its preimage. */
  datatype TokenHash = Sha256(preimage: string)

  function HashToken(token: string, secret: string): TokenHash {
    Sha256(token + secret)
  }

  /** The secret is a fixed suffix, so two tokens share a hash only when they are equal. */
  lemma HashTokenInjective(a: string, b: string, secret: string)
    requires HashToken(a, secret) == HashToken(b, secret)
    ensures a == b
  {
    assert |a| == |b|;
    assert forall k :: 0 <= k < |a| ==> a[k] == (a + secret)[k] && b[k] == (b + secret)[k];
  }

  datatype User = User(email: string, username: Option<string>, verified: bool,
                       lastLogin: Option<Time>, createdAt: Time)

  datatype Purpose = SignupVerification | ResetPassword

  datatype Otp = Otp(id: int, userId: int, otpHash: string, code: Digest, purpose: Purpose,
                     expiresAt: Time, deletedAt: Option<Time>, createdAt: Time)

  datatype Session = Session(id: int, userId: int, tokenHash: TokenHash,
                             expiresAt: Time, deletedAt: Option<Time>, createdAt: Time)

  datatype LinkKey = LinkKey(provider: int, sub: string)

  datatype Link = Link(userId: int, lastLoginAt: Time, createdAt: Time)

  /** Every call of the service into the database, the cache, the random source or the hasher
      that the source checks for an error. An environment names the ones that fail. */
  datatype CallSite =
    | Randomness | Hashing | CodeHashing
    | ExistsEmail | ExistsUsername | GetUserByEmail | GetUserByID
    | CreateUserBegin | CreateUserRow | CreateCredentialsRow | CreateUserCommit
    | UpdateVerified | UpdateUserLastLogin | UpdatePassword | DeleteUserRow
    | CreateOtp | GetOtp | SoftDeleteOtp | SoftDeleteOtpsOfUser | SweepOtps
    | CreateSession | GetSession | UpdateSession | SoftDeleteSession | SweepSessions | CheckSession
    | GetLink | CreateLink | UpdateLinkLastLogin
    | CacheGet | CacheSetSession | CacheSetValidity
    | CacheDeleteSession | CacheDeleteValidity | CacheDeleteSessionAgain | CacheDeleteValidityAgain
}
