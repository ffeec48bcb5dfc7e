/** Login, one-time-code registration and user lookup
    (src/features/auth/service/auth.service.ts). The user repository is a
    sequence of users owned by `AuthService`; sessions and the cache are the
    services of the other two modules. */
module Auth {
  import opened Common
  import opened Json
  import opened Redis
  import opened RefreshToken

  /** A stored user. `role` is whatever the user schema gives it. */
  datatype User = User(
    email: string,
    username: string,
    passwordHash: string,
    userId: string,
    slugId: string,
    role: Option<string>)

  /** The fields `createNewUser` picks out of the created user. */
  datatype UserSummary = UserSummary(username: string, email: string, slugId: string, userId: string)

  /** The reply of `login` and of `verifyRegisterOtp`. */
  datatype SessionResponse = SessionResponse(
    slugId: string,
    username: string,
    email: string,
    accessToken: AccessToken,
    refreshToken: string,
    sessionId: string,
    role: Option<string>)

  datatype RegisterOtpResponse = RegisterOtpResponse(email: string, otp: int)

  // ---------------------------------------------------------------------
  // Errors (src/interface/error.response.ts)

  /** gRPC status codes used by this service. */
  const InvalidArgumentCode: int := 3
  const NotFoundCode: int := 5
  const AlreadyExistsCode: int := 6
  const PermissionDeniedCode: int := 7
  const UnauthenticatedCode: int := 16

  datatype ErrorKind = AuthenticationFailed | RegisterFailed | LoginFailed

  /** The payload `{ error, details }` of an `RpcException`. */
  datatype RpcError = RpcError(kind: ErrorKind, code: int, details: string)

  /** The status code an error class falls back to. */
  function DefaultCode(kind: ErrorKind): int {
    match kind
    case AuthenticationFailed => PermissionDeniedCode
    case RegisterFailed => AlreadyExistsCode
    case LoginFailed => UnauthenticatedCode
  }

  /** The details an error class falls back to. */
  function DefaultDetails(kind: ErrorKind): string {
    match kind
    case AuthenticationFailed => "No permission"
    case RegisterFailed => "Register failed"
    case LoginFailed => "Login failed"
  }

  /** The error classes' constructors: a zero code or empty details fall
      back to the class's own default. */
  function NewRpcError(kind: ErrorKind, code: int, details: string): (e: RpcError)
    ensures e.kind == kind
    ensures code != 0 ==> e.code == code
    ensures code == 0 ==> e.code == DefaultCode(kind)
    ensures details != "" ==> e.details == details
    ensures details == "" ==> e.details == DefaultDetails(kind)
    ensures e.code != 0 && e.details != ""
  {
    RpcError(kind, if code != 0 then code else DefaultCode(kind),
             if details != "" then details else DefaultDetails(kind))
  }

  const WrongCredential: RpcError := NewRpcError(LoginFailed, UnauthenticatedCode, "Wrong credential")
  const EmailAlreadyRegistered: RpcError := NewRpcError(RegisterFailed, AlreadyExistsCode, "Email already register")
  const OtpNotFound: RpcError := NewRpcError(RegisterFailed, NotFoundCode, "OTP expired or not found")
  const OtpMismatch: RpcError := NewRpcError(RegisterFailed, InvalidArgumentCode, "OTP does not match")
  const UserNotFound: RpcError := NewRpcError(AuthenticationFailed, NotFoundCode, "Not found user")

  // ---------------------------------------------------------------------
  // Slug ids

  const SlugAlphabet: string := "0123456789ABCDEFGHIJKLMNOPQRSTUVWXYZ"
  const SlugCodeLength: nat := 8

  /** nanoid's picks: one index into the alphabet per code character. */
  predicate ValidPicks(picks: seq<nat>) {
    |picks| == SlugCodeLength && forall i :: 0 <= i < |picks| ==> picks[i] < |SlugAlphabet|
  }

  /** The random code `customAlphabet(SlugAlphabet, 8)()` yields for `picks`. */
  function SlugCode(picks: seq<nat>): (code: string)
    requires ValidPicks(picks)
    ensures |code| == SlugCodeLength
    ensures forall i :: 0 <= i < |code| ==> code[i] in SlugAlphabet && code[i] == SlugAlphabet[picks[i]]
  {
    seq(SlugCodeLength, i requires 0 <= i < SlugCodeLength => SlugAlphabet[picks[i]])
  }

  /** `slugIdGenerator(countryCode)`: the bare code when the country code is
      absent or empty, else `countryCode_code`. */
  function SlugId(picks: seq<nat>, countryCode: Option<string>): (s: string)
    requires ValidPicks(picks)
    ensures countryCode.None? || countryCode == Some("") ==> s == SlugCode(picks)
    ensures countryCode.Some? && countryCode.value != "" ==>
      s == countryCode.value + "_" + SlugCode(picks)
  {
    if countryCode.None? || countryCode.value == "" then SlugCode(picks)
    else countryCode.value + "_" + SlugCode(picks)
  }

  /** The shape of every slug id: the country code (if any) and an
      underscore, then eight characters of the alphabet; the code can be
      read back from the last eight characters. */
  lemma SlugIdShape(picks: seq<nat>, countryCode: Option<string>)
    requires ValidPicks(picks)
    ensures var s := SlugId(picks, countryCode);
      var prefixLength := if countryCode.None? || countryCode.value == "" then 0 else |countryCode.value| + 1;
      && |s| == prefixLength + 8
      && s[prefixLength..] == SlugCode(picks)
      && (forall i :: prefixLength <= i < |s| ==> s[i] in SlugAlphabet)
      && (prefixLength > 0 ==> s[..prefixLength - 1] == countryCode.value && s[prefixLength - 1] == '_')
  {
    var s := SlugId(picks, countryCode);
    if countryCode.Some? && countryCode.value != "" {
      var c := countryCode.value;
      assert s == c + "_" + SlugCode(picks);
      assert s[|c| + 1..] == SlugCode(picks);
      assert s[..|c|] == c;
      forall i | |c| + 1 <= i < |s| ensures s[i] in SlugAlphabet {
        assert s[i] == SlugCode(picks)[i - |c| - 1];
      }
    }
  }

  // ---------------------------------------------------------------------
  // Emails and one-time codes

  /** `email.split('@')[0]`: everything before the first '@' (the whole
      text when there is none). */
  function LocalPart(email: string): (p: string)
    ensures p <= email
    ensures '@' !in p
    ensures |p| < |email| ==> email[|p|] == '@'
  {
    if email == [] || email[0] == '@' then []
    else [email[0]] + LocalPart(email[1..])
  }

  const OtpRange: int := 1000000

  /** OTP lifetime handed to the cache: 5 minutes written as milliseconds. */
  const OtpTtl: nat := 60 * 5 * 1000

  /** `Math.floor(random * 1_000_000)` for `random = Math.random()`. */
  function OtpCode(random: real): (code: int)
    requires 0.0 <= random < 1.0
    ensures 0 <= code < OtpRange
    ensures code as real <= random * 1000000.0 < code as real + 1.0
  {
    (random * 1000000.0).Floor
  }

  /** The cache key of an email's code: the prefix followed by the email. */
  function OtpKey(prefix: string, email: string): (key: string)
    ensures |key| == |prefix| + |email|
    ensures key[..|prefix|] == prefix && key[|prefix|..] == email
  {
    prefix + email
  }

  /** The two guards of `verifyRegisterOtp` on the cached value: a falsy one
      (absent, or the code 0) is "not found", a different one a mismatch
      (strict equality: a code supplied as text never matches a number). */
  function OtpCheck(cached: Value, supplied: Value): (r: Option<RpcError>)
    ensures r == Some(OtpNotFound) <==> !Truthy(cached)
    ensures r == Some(OtpMismatch) <==> Truthy(cached) && cached != supplied
    ensures r.None? <==> Truthy(cached) && cached == supplied
  {
    if !Truthy(cached) then Some(OtpNotFound)
    else if cached != supplied then Some(OtpMismatch)
    else None
  }

  /** The code `registerOtp` stores verifies when supplied back as the same
      number, unless it is 0, which the truthiness guard reports as not
      found; a different number is a mismatch. */
  lemma IssuedCodeVerifies(store: Store, key: string, otp: int, supplied: int)
    ensures var cached := Read(Write(store, key, Num(otp), Some(OtpTtl)), key);
      && (otp != 0 && supplied == otp ==> OtpCheck(cached, Num(supplied)).None?)
      && (otp == 0 ==> OtpCheck(cached, Num(supplied)) == Some(OtpNotFound))
      && (otp != 0 && supplied != otp ==> OtpCheck(cached, Num(supplied)) == Some(OtpMismatch))
  {
    ReadAfterWrite(store, key, Num(otp), Some(OtpTtl));
  }

  /** Once the entry is deleted, any further verify reports "not found". */
  lemma ConsumedCodeIsNotFound(store: Store, key: string, supplied: Value)
    ensures OtpCheck(Read(store - {key}, key), supplied) == Some(OtpNotFound)
  {
  }

  // ---------------------------------------------------------------------
  // User lookups

  /** `findOne({ email })` on the user repository. */
  function FindByEmail(users: seq<User>, email: string): (r: Option<nat>)
    ensures r.Some? ==> r.value < |users| && users[r.value].email == email
    ensures r.Some? ==> forall j :: 0 <= j < r.value ==> users[j].email != email
    ensures r.None? ==> forall j :: 0 <= j < |users| ==> users[j].email != email
  {
    FirstIndex(users, (u: User) => u.email == email)
  }

  /** `findOne({ slugId })` on the user repository. */
  function FindBySlug(users: seq<User>, slugId: string): (r: Option<nat>)
    ensures r.Some? ==> r.value < |users| && users[r.value].slugId == slugId
    ensures r.Some? ==> forall j :: 0 <= j < r.value ==> users[j].slugId != slugId
    ensures r.None? ==> forall j :: 0 <= j < |users| ==> users[j].slugId != slugId
  {
    FirstIndex(users, (u: User) => u.slugId == slugId)
  }

  /** The credential check of `login`: the first user with the email, whose
      stored hash the password matches. An unknown email and a wrong
      password give the same error. */
  function CheckCredentials(users: seq<User>, matches: Matcher, email: string, password: string): (r: Result<User, RpcError>)
    ensures r.Success? <==> FindByEmail(users, email).Some?
                            && matches(password, users[FindByEmail(users, email).value].passwordHash)
    ensures r.Success? ==> r.value == users[FindByEmail(users, email).value]
    ensures r.Success? ==> r.value in users && r.value.email == email && matches(password, r.value.passwordHash)
    ensures r.Failure? ==> r.error == WrongCredential
  {
    match FindByEmail(users, email)
    case None => Failure(WrongCredential)
    case Some(i) =>
      if !matches(password, users[i].passwordHash) then Failure(WrongCredential)
      else Success(users[i])
  }

  /** A failed login does not tell whether the email is registered. */
  lemma LoginFailureHidesCause(users: seq<User>, matches: Matcher, known: string, unknown: string, password: string)
    requires FindByEmail(users, unknown).None?
    requires CheckCredentials(users, matches, known, password).Failure?
    ensures CheckCredentials(users, matches, known, password) == CheckCredentials(users, matches, unknown, password)
  {
  }

  // ---------------------------------------------------------------------
  // The service

  class AuthService {
    /** The refresh-token service (and its repository). */
    const sessions: RefreshTokenService
    /** The cache. */
    const cache: RedisService
    /** `OtpToken_PreFix`. */
    const otpPrefix: string
    /** The role the user schema gives a new user. */
    const newUserRole: Option<string>
    /** The user repository. */
    var users: seq<User>

    constructor(sessions: RefreshTokenService, cache: RedisService, otpPrefix: string, newUserRole: Option<string>)
      ensures this.sessions == sessions && this.cache == cache
      ensures this.otpPrefix == otpPrefix && this.newUserRole == newUserRole
      ensures users == []
    {
      this.sessions := sessions;
      this.cache := cache;
      this.otpPrefix := otpPrefix;
      this.newUserRole := newUserRole;
      users := [];
    }

    /** `login({ email, password })` at time `now`, with the fresh refresh
        token, its hash, and the session id the schema will draw. The access
        token is issued for `{ slugId }`, so it carries no `userId` claim. */
    method Login(email: string, password: string, now: int, freshToken: string, freshHash: string, sessionId: string)
      returns (r: Result<SessionResponse, RpcError>)
      requires sessions.matches(freshToken, freshHash)
      modifies sessions
      ensures var check := CheckCredentials(users, sessions.matches, email, password);
        && (check.Failure? ==> r == Failure(WrongCredential) && sessions.records == old(sessions.records))
        && (check.Success? ==>
              var u := check.value;
              && r == Success(SessionResponse(u.slugId, u.username, u.email,
                                              IssueTokenPair(sessions.matches, None, now, freshToken, freshHash).accessToken,
                                              freshToken, sessionId, u.role))
              && sessions.records == old(sessions.records) +
                   [SessionRecord(u.userId, sessionId, freshHash, now, now + RefreshLifetimeMs, [])])
      ensures old(sessions.Valid()) ==> sessions.Valid()
    {
      var check := CheckCredentials(users, sessions.matches, email, password);
      if check.Failure? {
        return Failure(check.error);
      }
      var foundUser := check.value;
      var pair := IssueTokenPair(sessions.matches, None, now, freshToken, freshHash);
      var record := sessions.CreateSession(foundUser.userId, pair.refreshTokenInfo.tokenHash,
                                           pair.refreshTokenInfo.expiresAt, now, sessionId);
      r := Success(SessionResponse(foundUser.slugId, foundUser.username, foundUser.email,
                                   pair.accessToken, pair.refreshTokenInfo.refreshToken,
                                   record.sessionId, foundUser.role));
    }

    /** `registerOtp({ email })` with `random` the value `Math.random()`
        returns. A registered email writes nothing. */
    method RegisterOtp(email: string, random: real) returns (r: Result<RegisterOtpResponse, RpcError>)
      requires 0.0 <= random < 1.0
      modifies cache
      ensures FindByEmail(users, email).Some? ==> r == Failure(EmailAlreadyRegistered) && cache.store == old(cache.store)
      ensures FindByEmail(users, email).None? ==>
        && r == Success(RegisterOtpResponse(email, OtpCode(random)))
        && 0 <= r.value.otp < OtpRange
        && cache.store == Write(old(cache.store), OtpKey(otpPrefix, email), Num(r.value.otp), Some(OtpTtl))
    {
      if FindByEmail(users, email).Some? {
        return Failure(EmailAlreadyRegistered);
      }
      var otp := OtpCode(random);
      var otpToken := OtpKey(otpPrefix, email);
      cache.Set(otpToken, Num(otp), Some(OtpTtl));
      r := Success(RegisterOtpResponse(email, otp));
    }

    /** `createNewUser` without the character-profile call: stores a user
        with the bcrypt hash of `password`, a slug id without country code
        and the fresh uuid `userId`. */
    method CreateNewUser(email: string, username: string, password: string, passwordHash: string,
                         picks: seq<nat>, userId: string)
      returns (summary: UserSummary)
      requires sessions.matches(password, passwordHash)
      requires ValidPicks(picks)
      modifies this
      ensures users == old(users) + [User(email, username, passwordHash, userId, SlugId(picks, None), newUserRole)]
      ensures summary == UserSummary(username, email, SlugId(picks, None), userId)
      ensures |summary.slugId| == SlugCodeLength
    {
      var slugId := SlugId(picks, None);
      var newUser := User(email, username, passwordHash, userId, slugId, newUserRole);
      users := users + [newUser];
      summary := UserSummary(newUser.username, newUser.email, newUser.slugId, newUser.userId);
    }

    /** `verifyRegisterOtp({ email, otp })`: on a match the code is
        consumed, a user named after the email's local part is created with
        that local part as password, and a first session is opened. */
    method VerifyRegisterOtp(email: string, otp: Value, now: int, picks: seq<nat>, userId: string,
                             passwordHash: string, freshToken: string, freshHash: string, sessionId: string)
      returns (r: Result<SessionResponse, RpcError>)
      requires sessions.matches(LocalPart(email), passwordHash)
      requires sessions.matches(freshToken, freshHash)
      requires ValidPicks(picks)
      modifies this, sessions, cache
      ensures var check := OtpCheck(Read(old(cache.store), OtpKey(otpPrefix, email)), otp);
        check.Some? ==>
          && r == Failure(check.value)
          && cache.store == old(cache.store) && users == old(users) && sessions.records == old(sessions.records)
      ensures var check := OtpCheck(Read(old(cache.store), OtpKey(otpPrefix, email)), otp);
        var name := LocalPart(email);
        var slugId := SlugId(picks, None);
        check.None? ==>
          && cache.store == old(cache.store) - {OtpKey(otpPrefix, email)}
          && users == old(users) + [User(email, name, passwordHash, userId, slugId, newUserRole)]
          && sessions.records == old(sessions.records) + [SessionRecord(userId, sessionId, freshHash, now, now + RefreshLifetimeMs, [])]
          && r == Success(SessionResponse(slugId, name, email,
                                          IssueTokenPair(sessions.matches, None, now, freshToken, freshHash).accessToken,
                                          freshToken, sessionId, Some(DefaultRole)))
      ensures old(sessions.Valid()) ==> sessions.Valid()
    {
      var otpToken := OtpKey(otpPrefix, email);
      var cachedOtp := cache.Get(otpToken);
      var check := OtpCheck(cachedOtp, otp);
      if check.Some? {
        return Failure(check.value);
      }
      cache.Del(otpToken);

      var defaultUserNameAndPassword := LocalPart(email);
      var created := CreateNewUser(email, defaultUserNameAndPassword, defaultUserNameAndPassword, passwordHash, picks, userId);

      var pair := IssueTokenPair(sessions.matches, None, now, freshToken, freshHash);
      var record := sessions.CreateSession(created.userId, pair.refreshTokenInfo.tokenHash,
                                           pair.refreshTokenInfo.expiresAt, now, sessionId);
      r := Success(SessionResponse(created.slugId, created.username, created.email,
                                   pair.accessToken, pair.refreshTokenInfo.refreshToken,
                                   record.sessionId, Some(DefaultRole)));
    }

    /** `getUserFromSlug({ slugId })`: an absent or empty slug is refused
        before any lookup; otherwise the first user with that slug. */
    function GetUserFromSlug(slugId: Option<string>): (r: Result<User, RpcError>)
      reads this
      ensures r.Failure? ==> r.error == UserNotFound
      ensures slugId.None? || slugId == Some("") ==> r.Failure?
      ensures r.Success? ==> r.value in users && slugId == Some(r.value.slugId)
      ensures r.Success? ==> FindBySlug(users, slugId.value).Some?
                             && r.value == users[FindBySlug(users, slugId.value).value]
      ensures slugId.Some? && slugId.value != "" && r.Failure? ==>
        forall u :: u in users ==> u.slugId != slugId.value
    {
      if slugId.None? || slugId.value == "" then Failure(UserNotFound)
      else match FindBySlug(users, slugId.value)
        case None => Failure(UserNotFound)
        case Some(i) => Success(users[i])
    }
  }

  /** `APP_ROLE.USER`, the role `verifyRegisterOtp` reports. */
  const DefaultRole: string := "USER"
}
