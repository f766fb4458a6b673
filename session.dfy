/** The account's session and identity bundle, and the failures the session
    layer's collaborators report. */
module Session {

  /** The kinds of failure that loading credentials, loading the private key,
      signing the proof, logging in and saving credentials can report. Which
      kind a collaborator reports is the collaborator's business; the session
      layer only propagates it. */
  datatype Error =
    | NotLoggedIn
    | KeyNotFound
    | SigningFailed
    | AuthRejected
    | NetworkError
    | MalformedResponse
    | StorageError

  /** A stored `Credentials` record. */
  datatype Credentials = Credentials(
    authToken: string,
    deviceId: string,
    userId: string,
    certBase64: string,
    isDemoMode: bool,
    loginKeyIdentifier: string)

  /** What the `Credentials` initialiser puts in `loginKeyIdentifier` when it
      is given only the other five fields. That initialiser is not part of
      this model, so the choice is a parameter: any function of the five
      arguments it receives. */
  type KeyIdentifierRule = (string, string, string, string, bool) -> string

  /** The credentials built after a successful login: the new token, and the
      device, user, certificate and demo flag of the credentials that were
      refreshed. */
  function Refreshed(c: Credentials, newToken: string, rule: KeyIdentifierRule): (u: Credentials)
    ensures u.authToken == newToken
    ensures u.deviceId == c.deviceId && u.userId == c.userId
    ensures u.certBase64 == c.certBase64 && u.isDemoMode == c.isDemoMode
    ensures u.loginKeyIdentifier == rule(newToken, c.deviceId, c.userId, c.certBase64, c.isDemoMode)
    ensures u == c.(authToken := newToken, loginKeyIdentifier := u.loginKeyIdentifier)
  {
    Credentials(
      authToken := newToken,
      deviceId := c.deviceId,
      userId := c.userId,
      certBase64 := c.certBase64,
      isDemoMode := c.isDemoMode,
      loginKeyIdentifier := rule(newToken, c.deviceId, c.userId, c.certBase64, c.isDemoMode))
  }
}
