/** The JSON Web Token payload the backend issues and checks. Signing and
    verification are library calls; a signed token is kept symbolic (what was
    signed, with which secret and lifetime) and verification is a parameter. */
module Jwt {
  import opened Wrappers

  /** `{ userId, email, role, facilityId }`. */
  datatype Claims = Claims(userId: string, email: string, role: string, facilityId: Option<string>)

  /** The result of `jwt.sign(claims, secret, { expiresIn })`. */
  datatype SignedToken = SignedToken(claims: Claims, secret: string, expiresIn: string)

  /** `jwt.verify(token, secret)`: the decoded claims, or `None` when the
      signature, the expiry or the format is bad. */
  type Verifier = (string, string) -> Option<Claims>
}
