/**
  What a route handler receives and returns: request cookies, the JSON body
  of the response with its status, and the cookies it sets.
*/
module Http {
  import opened Capabilities

  /** `!field` on a JSON string field or a cookie value: absent and "" are both falsy. */
  predicate Present(s: string) {
    s != ""
  }

  type CookieJar = map<string, string>

  /** `req.cookies.get(name)?.value`, with "" for a missing cookie. */
  function CookieValue(jar: CookieJar, name: string): string {
    if name in jar then jar[name] else ""
  }

  datatype SameSite = Lax | NoneSite

  datatype SetCookie = SetCookie(
    name: string, value: string, httpOnly: bool, secure: bool,
    sameSite: SameSite, path: string, maxAge: int)

  const REFRESH_COOKIE := "refreshToken"
  const ADMIN_COOKIE := "adminToken"
  const THIRTY_DAYS_S := 30 * 24 * 60 * 60
  const THIRTY_DAYS_MS := 30 * 24 * 60 * 60 * 1000
  const EIGHT_HOURS_S := 8 * 60 * 60

  /** The refresh-token cookie every route that issues or clears one sets. */
  function RefreshCookie(value: string, maxAge: int, env: Env): SetCookie {
    SetCookie(REFRESH_COOKIE, value, true, env.production, NoneSite, "/", maxAge)
  }

  datatype OriginView = OriginView(id: Id, origin: string, createdAt: int)
  datatype UserRow = UserRow(id: Id, email: string, role: string, joinedAt: int)
  datatype UserSummary = UserSummary(id: Id, email: string, customerId: Id, role: string)

  datatype Body =
    | ErrorBody(error: string)
    | RegistrationStarted(tempToken: string, qrUri: OtpAuthUri)
    | HandshakeComplete(authId: string, redirectUrl: string)
    | ChallengeIssued(tempToken: string)
      /** The admin route's `tempToken` is an unsettled Promise, which JSON
          serializes as an empty object: the body carries no usable token. */
    | AdminChallengeIssued
    | AdminLoggedIn
    | TokenIssued(token: string, user: AccessClaims)
    | TokenRefreshed(token: string, account: UserSummary)
    | LoggedOut
    | OriginList(urls: seq<OriginView>)
    | OriginCreated(entry: OriginView)
    | OriginRemoved
    | CompanyRegistered(customerId: Id)
    | AccountCreated(userId: Id, customerId: Id)
    | PasswordUpdated
    | UserList(users: seq<UserRow>)
    | Stats(totalUsers: nat, totalRedirectUrls: nat)
    | Me(userId: Id, email: string, customerId: Id, role: string, companyName: string)

  datatype Response = Response(status: int, body: Body, cookies: seq<SetCookie>)

  function Failure(status: int, message: string): Response {
    Response(status, ErrorBody(message), [])
  }

  /** The body of the two TOTP-completion steps of the end-user flows. */
  datatype TotpRequest = TotpRequest(tempToken: string, totpCode: string)

  const ALL_FIELDS := "All fields are required"
  const INTERNAL_ERROR := "Internal server error"
  const INVALID_CREDENTIALS := "Invalid email or password"
  const INVALID_TOTP := "Invalid TOTP code"
  const NO_TOTP := "2FA setup is not complete for this account"
  const UNAUTHORIZED := "Unauthorized"
}
