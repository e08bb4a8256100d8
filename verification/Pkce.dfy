/** The PKCE format checks made at authorize and at code exchange. */
module Pkce {

  predicate IsAlphanumeric(c: char) {
    'a' <= c <= 'z' || 'A' <= c <= 'Z' || '0' <= c <= '9'
  }

  predicate IsUrlSafe(c: char) { IsAlphanumeric(c) || c == '-' || c == '_' }

  predicate IsUnreserved(c: char) { IsUrlSafe(c) || c == '.' || c == '~' }

  predicate AllUrlSafe(s: string) { forall i :: 0 <= i < |s| ==> IsUrlSafe(s[i]) }

  predicate AllUnreserved(s: string) { forall i :: 0 <= i < |s| ==> IsUnreserved(s[i]) }

  datatype ChallengeMethod = S256 | Plain

  /** Whether an authorize request's challenge is accepted. */
  predicate AcceptsChallenge(challenge: string, challengeMethod: ChallengeMethod, allowPlain: bool) {
    match challengeMethod
    case S256 => |challenge| == 43 && AllUrlSafe(challenge)
    case Plain => allowPlain && 43 <= |challenge| <= 128
  }

  /** Whether a code verifier is well formed (section 4.1 of RFC 7636). */
  predicate AcceptsVerifier(verifier: string) {
    43 <= |verifier| <= 128 && AllUnreserved(verifier)
  }

  /** Whether `verifier` answers the challenge; `digest` is base64url of SHA-256. */
  predicate Answers(verifier: string, challenge: string, challengeMethod: ChallengeMethod, allowPlain: bool,
                    digest: string -> string)
  {
    match challengeMethod
    case S256 => digest(verifier) == challenge
    case Plain => allowPlain && verifier == challenge
  }
}
