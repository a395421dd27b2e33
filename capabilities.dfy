/**
  The cryptographic and parsing collaborators the route handlers call, kept
  abstract: bcrypt (hashString / validateHash), otplib (verify, generateURI),
  JSON Web Token signing and verification, and `new URL(...).origin`.
  Random values (crypto.randomBytes tokens, otplib secrets, database id
  defaults) arrive as `Draws`; the clock is an integer `now` in milliseconds.
*/
module Capabilities {
  import opened Wrappers

  type Id = string
  type Secret = string
  type PasswordHash = string

  /** The SHA-style digest stored for a refresh token. A constructor, so the
      hash is injective: two values share a digest only if they are equal. */
  datatype TokenHash = Digest(preimage: string)

  function HashToken(value: string): TokenHash {
    Digest(value)
  }

  /** The `otpauth://` enrollment URI; its textual format is not modelled. */
  datatype OtpAuthUri = OtpAuthUri(issuer: string, accountLabel: string, secret: Secret)

  /** Claims of the admin dashboard token (`signToken`), read back by `verifyToken`. */
  datatype AdminClaims = AdminClaims(userId: Id, email: string, customerId: Id, role: string)

  /** Claims of the access token handed to a tenant (`jwt.sign` with `sub`). */
  datatype AccessClaims = AccessClaims(sub: Id, email: string, customerId: Id, role: string)

  datatype Env = Env(
    hashPassword: string -> PasswordHash,            // bcrypt.hash, 12 rounds
    checkPassword: (PasswordHash, string) -> bool,   // bcrypt.compare(plain, hash)
    verifyTotp: (Secret, string) -> bool,            // otplib verify({token, secret})
    originOf: string -> Option<string>,              // new URL(u).origin; None when it throws
    signAdmin: (AdminClaims, string) -> string,      // signToken(claims, expiresIn)
    signAccess: (AccessClaims, string) -> string,    // jwt.sign(claims, JWT_SECRET, {expiresIn})
    verifyAdmin: string -> Option<AdminClaims>,      // verifyToken; None when it throws
    production: bool)                                // NODE_ENV === "production"

  /** The random values one request may draw. */
  datatype Draws = Draws(
    tempToken: string,      // generateToken() for a pending handshake
    totpSecret: Secret,     // generateSecret()
    refreshValue: string,   // generateToken() for a refresh token
    authId: string,         // generateToken() for an exchange code
    userId: Id,             // database default id of a new user
    customerId: Id,         // database default id of a new customer
    rowId: Id)              // database default id of a new refresh-token or origin row
}
