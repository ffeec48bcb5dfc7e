/** Session records and refresh-token rotation
    (src/features/auth/service/refresh-token.service.ts). The refresh-token
    repository is the sequence of records owned by `RefreshTokenService`. */
module RefreshToken {
  import opened Common

  /** `bcrypt.compare(token, hash)`: whether a raw token matches a stored hash. */
  type Matcher = (string, string) -> bool

  /** Refresh-token lifetime: 7 days, in milliseconds. */
  const RefreshLifetimeMs: int := 7 * 24 * 60 * 60 * 1000

  /** Access-token lifetime `'5m'`, in seconds. */
  const AccessLifetimeSeconds: int := 5 * 60

  /** HTTP status of every refresh-token failure (NOT_ACCEPTABLE). */
  const RefreshFailedStatus: int := 406

  /** One refresh-token document (src/schemas/refreshToken.schema.ts).
      Times are milliseconds since the epoch. */
  datatype SessionRecord = SessionRecord(
    userId: string,
    sessionId: string,
    tokenHash: string,
    createdAt: int,
    expiresAt: int,
    usedTokenHashes: seq<string>)

  /** The claims of the signed access token `{ userId }` with `iat` and `exp`
      in seconds; the signature is not modelled. An absent `userId` is a
      claim the signer leaves out. */
  datatype AccessToken = AccessToken(userId: Option<string>, issuedAt: int, expiresAt: int)

  datatype RefreshTokenInfo = RefreshTokenInfo(refreshToken: string, tokenHash: string, expiresAt: int)

  datatype TokenPair = TokenPair(accessToken: AccessToken, refreshTokenInfo: RefreshTokenInfo)

  /** What a successful rotation returns. */
  datatype Rotated = Rotated(accessToken: AccessToken, refreshToken: string, sessionId: string)

  /** The four `RefreshTokenError`s rotation throws. */
  datatype RefreshError = NoTokenFound | InvalidToken | ReusedToken | TokenExpired {
    function Message(): string {
      match this
      case NoTokenFound => "No token found"
      case InvalidToken => "Invalid token"
      case ReusedToken => "Invalid credential, please login again"
      case TokenExpired => "Refresh token expired, please login again"
    }

    function Status(): int {
      RefreshFailedStatus
    }
  }

  /** `issueTokenPair({ userId })` at time `now` (ms), given the fresh uuid
      `token` and its bcrypt hash `hash`. `claimUserId` is whatever the
      caller passed as `userId`: None when the caller passed another field. */
  function IssueTokenPair(matches: Matcher, claimUserId: Option<string>, now: int, token: string, hash: string): (p: TokenPair)
    requires matches(token, hash)
    ensures p.refreshTokenInfo.refreshToken == token && p.refreshTokenInfo.tokenHash == hash
    ensures matches(p.refreshTokenInfo.refreshToken, p.refreshTokenInfo.tokenHash)
    ensures p.refreshTokenInfo.expiresAt == now + 604800000
    ensures p.accessToken.userId == claimUserId
    ensures p.accessToken.issuedAt * 1000 <= now < (p.accessToken.issuedAt + 1) * 1000
    ensures p.accessToken.expiresAt == p.accessToken.issuedAt + 300
  {
    var issuedAt := now / 1000;
    TokenPair(
      AccessToken(claimUserId, issuedAt, issuedAt + AccessLifetimeSeconds),
      RefreshTokenInfo(token, hash, now + RefreshLifetimeMs))
  }

  // ---------------------------------------------------------------------
  // Repository queries

  predicate IsSession(r: SessionRecord, userId: string, sessionId: string) {
    r.userId == userId && r.sessionId == sessionId
  }

  /** `findOne({ userId, sessionId })`: the first matching record. */
  function FindSession(records: seq<SessionRecord>, userId: string, sessionId: string): (r: Option<nat>)
    ensures r.Some? ==> r.value < |records| && IsSession(records[r.value], userId, sessionId)
    ensures r.Some? ==> forall j :: 0 <= j < r.value ==> !IsSession(records[j], userId, sessionId)
    ensures r.None? ==> forall j :: 0 <= j < |records| ==> !IsSession(records[j], userId, sessionId)
  {
    FirstIndex(records, (rec: SessionRecord) => IsSession(rec, userId, sessionId))
  }

  /** `findMany({ userId })`: the user's records, in store order. */
  function SessionsOf(records: seq<SessionRecord>, userId: string): (r: seq<SessionRecord>)
    ensures forall x :: x in r <==> x in records && x.userId == userId
    ensures |r| <= |records|
  {
    if records == [] then []
    else (if records[0].userId == userId then [records[0]] else []) + SessionsOf(records[1..], userId)
  }

  /** The store after `deleteMany({ userId })`. */
  function WithoutUser(records: seq<SessionRecord>, userId: string): (r: seq<SessionRecord>)
    ensures forall x :: x in r <==> x in records && x.userId != userId
    ensures |r| <= |records|
  {
    if records == [] then []
    else (if records[0].userId != userId then [records[0]] else []) + WithoutUser(records[1..], userId)
  }

  /** `hashes.map((h) => bcrypt.compare(token, h))`: one verdict per hash, in order. */
  function CompareAll(matches: Matcher, token: string, hashes: seq<string>): (verdicts: seq<bool>)
    ensures |verdicts| == |hashes|
    ensures forall i :: 0 <= i < |hashes| ==> verdicts[i] == matches(token, hashes[i])
  {
    seq(|hashes|, i requires 0 <= i < |hashes| => matches(token, hashes[i]))
  }

  /** `.some((item) => item)` over those verdicts: some used hash matches the token. */
  predicate AnyMatch(matches: Matcher, token: string, hashes: seq<string>): (b: bool)
    ensures b <==> exists h :: h in hashes && matches(token, h)
  {
    true in CompareAll(matches, token, hashes)
  }

  /** The record after a successful rotation: the old hash is pushed on the
      used list and the new hash and expiry replace the current ones. */
  function Advance(rec: SessionRecord, info: RefreshTokenInfo): (r: SessionRecord)
    ensures r.userId == rec.userId && r.sessionId == rec.sessionId && r.createdAt == rec.createdAt
    ensures r.usedTokenHashes == rec.usedTokenHashes + [rec.tokenHash]
    ensures |r.usedTokenHashes| == |rec.usedTokenHashes| + 1
    ensures r.tokenHash == info.tokenHash && r.expiresAt == info.expiresAt
  {
    rec.(usedTokenHashes := rec.usedTokenHashes + [rec.tokenHash],
         expiresAt := info.expiresAt,
         tokenHash := info.tokenHash)
  }

  // ---------------------------------------------------------------------
  // Rotation

  /** `rotateToken` as a state machine: its outcome and the store after it.
      The checks run in the source's order: record lookup, current-hash
      match, used-hash match, expiry, advance. */
  function Rotate(records: seq<SessionRecord>, matches: Matcher, userId: string, sessionId: string,
                  token: string, now: int, freshToken: string, freshHash: string)
    : (out: (Result<Rotated, RefreshError>, seq<SessionRecord>))
    requires matches(freshToken, freshHash)
    // No record for (userId, sessionId): "No token found", nothing changes.
    ensures FindSession(records, userId, sessionId).None? <==> out.0 == Failure(NoTokenFound)
    ensures out.0 == Failure(NoTokenFound) ==> out.1 == records
    // The token does not match the current hash: "Invalid token", nothing
    // changes, whatever the used hashes are.
    ensures var f := FindSession(records, userId, sessionId);
      out.0 == Failure(InvalidToken) <==> f.Some? && !matches(token, records[f.value].tokenHash)
    ensures out.0 == Failure(InvalidToken) ==> out.1 == records
    // Reuse is detected only for a token matching the current hash AND a used one.
    ensures var f := FindSession(records, userId, sessionId);
      out.0 == Failure(ReusedToken) <==>
        f.Some? && matches(token, records[f.value].tokenHash)
        && AnyMatch(matches, token, records[f.value].usedTokenHashes)
    // Expiry is strict: a record expiring exactly now still rotates.
    ensures var f := FindSession(records, userId, sessionId);
      out.0 == Failure(TokenExpired) <==>
        f.Some? && matches(token, records[f.value].tokenHash)
        && !AnyMatch(matches, token, records[f.value].usedTokenHashes)
        && records[f.value].expiresAt < now
    // Both terminal failures delete every record of the user.
    ensures out.0 == Failure(ReusedToken) || out.0 == Failure(TokenExpired) ==>
      out.1 == WithoutUser(records, userId)
    // Success advances exactly the found record.
    ensures out.0.Success? ==>
      var i := FindSession(records, userId, sessionId).value;
      && out.0.value.sessionId == sessionId
      && out.0.value.refreshToken == freshToken
      && out.0.value.accessToken.userId == Some(userId)
      && |out.1| == |records|
      && out.1[i].userId == userId && out.1[i].sessionId == sessionId
      && out.1[i].createdAt == records[i].createdAt
      && out.1[i].usedTokenHashes == records[i].usedTokenHashes + [records[i].tokenHash]
      && out.1[i].tokenHash == freshHash
      && matches(out.0.value.refreshToken, out.1[i].tokenHash)
      && out.1[i].expiresAt == now + RefreshLifetimeMs
      && (forall j :: 0 <= j < |records| && j != i ==> out.1[j] == records[j])
  {
    match FindSession(records, userId, sessionId)
    case None => (Failure(NoTokenFound), records)
    case Some(i) =>
      var rec := records[i];
      if !matches(token, rec.tokenHash) then (Failure(InvalidToken), records)
      else if AnyMatch(matches, token, rec.usedTokenHashes) then (Failure(ReusedToken), WithoutUser(records, userId))
      else if rec.expiresAt < now then (Failure(TokenExpired), WithoutUser(records, userId))
      else
        var pair := IssueTokenPair(matches, Some(userId), now, freshToken, freshHash);
        (Success(Rotated(pair.accessToken, pair.refreshTokenInfo.refreshToken, sessionId)),
         records[i := Advance(rec, pair.refreshTokenInfo)])
  }

  // ---------------------------------------------------------------------
  // Properties of the store operations

  /** Every record belongs either to the user or to someone else. */
  lemma {:induction false} PartitionByUser(records: seq<SessionRecord>, userId: string)
    ensures |SessionsOf(records, userId)| + |WithoutUser(records, userId)| == |records|
  {
    if records != [] {
      PartitionByUser(records[1..], userId);
    }
  }

  /** After `deleteMany({ userId })` the user has no session left, and every
      other user's list is exactly what it was, in the same order. */
  lemma {:induction false} WipeKeepsOtherUsers(records: seq<SessionRecord>, userId: string, other: string)
    ensures SessionsOf(WithoutUser(records, userId), userId) == []
    ensures other != userId ==> SessionsOf(WithoutUser(records, userId), other) == SessionsOf(records, other)
  {
    if records != [] {
      WipeKeepsOtherUsers(records[1..], userId, other);
      var head := if records[0].userId != userId then [records[0]] else [];
      assert WithoutUser(records, userId) == head + WithoutUser(records[1..], userId);
      SessionsOfAppend(head, WithoutUser(records[1..], userId), userId);
      SessionsOfAppend(head, WithoutUser(records[1..], userId), other);
      if head != [] {
        assert head[1..] == [];
      }
    }
  }

  lemma {:induction false} SessionsOfAppend(a: seq<SessionRecord>, b: seq<SessionRecord>, userId: string)
    ensures SessionsOf(a + b, userId) == SessionsOf(a, userId) + SessionsOf(b, userId)
  {
    if a == [] {
      assert a + b == b;
    } else {
      var head := if a[0].userId == userId then [a[0]] else [];
      calc {
        SessionsOf(a + b, userId);
        { assert (a + b)[0] == a[0] && (a + b)[1..] == a[1..] + b; }
        head + SessionsOf(a[1..] + b, userId);
        { SessionsOfAppend(a[1..], b, userId); }
        head + (SessionsOf(a[1..], userId) + SessionsOf(b, userId));
        SessionsOf(a, userId) + SessionsOf(b, userId);
      }
    }
  }

  /** A rotation that ends the session (reuse or expiry) leaves nothing to
      rotate: the next attempt on the same session finds no record. */
  lemma TerminalFailureEndsSession(records: seq<SessionRecord>, matches: Matcher, userId: string, sessionId: string,
                                   token: string, now: int, freshToken: string, freshHash: string,
                                   token2: string, now2: int, freshToken2: string, freshHash2: string)
    requires matches(freshToken, freshHash) && matches(freshToken2, freshHash2)
    requires Rotate(records, matches, userId, sessionId, token, now, freshToken, freshHash).0
             in {Failure(ReusedToken), Failure(TokenExpired)}
    ensures var after := Rotate(records, matches, userId, sessionId, token, now, freshToken, freshHash).1;
      Rotate(after, matches, userId, sessionId, token2, now2, freshToken2, freshHash2) == (Failure(NoTokenFound), after)
      && SessionsOf(after, userId) == []
  {
    WipeKeepsOtherUsers(records, userId, userId);
  }

  // ---------------------------------------------------------------------
  // Reuse detection

  /** Only `token` itself matches a hash of `token`. bcrypt reads the first
      72 bytes of its input, so this holds for shorter inputs such as the
      uuid refresh tokens; salting is no obstacle, since it is about one
      hash and many inputs, not one input and many hashes. */
  ghost predicate OnlyTokenMatching(matches: Matcher, token: string) {
    forall t, h :: matches(token, h) && matches(t, h) ==> t == token
  }

  /** `token` matches no hash in the store, current or used: what a freshly
      drawn uuid does. */
  ghost predicate MatchesNothingStored(records: seq<SessionRecord>, matches: Matcher, token: string) {
    forall r :: r in records ==> !matches(token, r.tokenHash) && !AnyMatch(matches, token, r.usedTokenHashes)
  }

  /** No token matches both a record's current hash and one of its used hashes. */
  ghost predicate NoDoubleMatch(records: seq<SessionRecord>, matches: Matcher) {
    forall r, t :: r in records && matches(t, r.tokenHash) ==> !AnyMatch(matches, t, r.usedTokenHashes)
  }

  /** No record lists its current hash among its used ones. */
  ghost predicate CurrentNeverUsed(records: seq<SessionRecord>) {
    forall r :: r in records ==> r.tokenHash !in r.usedTokenHashes
  }

  /** A hash that no record holds, current or used: what a fresh bcrypt hash is. */
  ghost predicate HashUnused(records: seq<SessionRecord>, h: string) {
    forall r :: r in records ==> r.tokenHash != h && h !in r.usedTokenHashes
  }

  /** Because the current-hash check comes first, the reuse branch needs a
      token matching both the current hash and a used one; in a store where
      no token does, it cannot fire. */
  lemma ReuseNeedsDoubleMatch(records: seq<SessionRecord>, matches: Matcher, userId: string, sessionId: string,
                              token: string, now: int, freshToken: string, freshHash: string)
    requires matches(freshToken, freshHash)
    requires NoDoubleMatch(records, matches)
    ensures Rotate(records, matches, userId, sessionId, token, now, freshToken, freshHash).0 != Failure(ReusedToken)
  {
    var f := FindSession(records, userId, sessionId);
    if f.Some? {
      assert records[f.value] in records;
    }
  }

  /** Rotation to a fresh token that matches nothing stored and whose hash
      only it matches keeps the store free of double matches. */
  lemma RotateKeepsNoDoubleMatch(records: seq<SessionRecord>, matches: Matcher, userId: string, sessionId: string,
                                 token: string, now: int, freshToken: string, freshHash: string)
    requires matches(freshToken, freshHash)
    requires NoDoubleMatch(records, matches)
    requires OnlyTokenMatching(matches, freshToken) && MatchesNothingStored(records, matches, freshToken)
    ensures NoDoubleMatch(Rotate(records, matches, userId, sessionId, token, now, freshToken, freshHash).1, matches)
  {
    var out := Rotate(records, matches, userId, sessionId, token, now, freshToken, freshHash);
    if out.0.Success? {
      var i := FindSession(records, userId, sessionId).value;
      assert records[i] in records;
      forall r, t | r in out.1 && matches(t, r.tokenHash) ensures !AnyMatch(matches, t, r.usedTokenHashes) {
        var k :| 0 <= k < |out.1| && out.1[k] == r;
        if k != i {
          assert records[k] in records;
        } else {
          assert t == freshToken;
        }
      }
    }
  }

  /** A salted hash: one leading salt character, then the input. The same
      token has a hash per salt, yet every hash is matched by one input
      only, so the premise of `RotateKeepsNoDoubleMatch` holds. */
  lemma SaltedHashMatchesOnlyItsToken(token: string)
    ensures var salted: Matcher := (t: string, h: string) => |h| > 0 && h[1..] == t;
      && OnlyTokenMatching(salted, token)
      && salted(token, "a" + token) && salted(token, "b" + token) && "a" + token != "b" + token
  {
    var salted: Matcher := (t: string, h: string) => |h| > 0 && h[1..] == t;
    assert ("a" + token)[1..] == token && ("b" + token)[1..] == token;
    assert ("a" + token)[0] != ("b" + token)[0];
  }

  /** A token that matches nothing stored has a hash nothing stores. */
  lemma FreshTokenHashUnused(records: seq<SessionRecord>, matches: Matcher, freshToken: string, freshHash: string)
    requires matches(freshToken, freshHash) && MatchesNothingStored(records, matches, freshToken)
    ensures HashUnused(records, freshHash)
  {
  }

  /** Rotation with a fresh hash keeps every current hash out of its used list. */
  lemma RotateKeepsCurrentNeverUsed(records: seq<SessionRecord>, matches: Matcher, userId: string, sessionId: string,
                                    token: string, now: int, freshToken: string, freshHash: string)
    requires matches(freshToken, freshHash)
    requires CurrentNeverUsed(records) && HashUnused(records, freshHash)
    ensures CurrentNeverUsed(Rotate(records, matches, userId, sessionId, token, now, freshToken, freshHash).1)
  {
    var out := Rotate(records, matches, userId, sessionId, token, now, freshToken, freshHash);
    if out.0.Success? {
      var i := FindSession(records, userId, sessionId).value;
      assert records[i] in records;
      forall r | r in out.1 ensures r.tokenHash !in r.usedTokenHashes {
        var k :| 0 <= k < |out.1| && out.1[k] == r;
        if k != i {
          assert records[k] in records;
        }
      }
    }
  }

  /** The replay scenario: a session is rotated twice (t0 -> t1 -> t2) and
      the first token t0 is presented again. With each token matching only
      its own hash, the replay ends with "Invalid token" and no record is
      deleted: the user's session survives. */
  lemma ReplayAfterTwoRotations(matches: Matcher, userId: string, sessionId: string, createdAt: int, now: int,
                                t0: string, h0: string, t1: string, h1: string, t2: string, h2: string,
                                t3: string, h3: string)
    requires matches(t0, h0) && matches(t1, h1) && matches(t2, h2) && matches(t3, h3)
    requires !matches(t0, h2)
    requires !matches(t0, h1) && !matches(t1, h0)
    requires now <= createdAt + RefreshLifetimeMs
    ensures
      var r0 := [SessionRecord(userId, sessionId, h0, createdAt, createdAt + RefreshLifetimeMs, [])];
      var s1 := Rotate(r0, matches, userId, sessionId, t0, now, t1, h1);
      var s2 := Rotate(s1.1, matches, userId, sessionId, t1, now, t2, h2);
      var s3 := Rotate(s2.1, matches, userId, sessionId, t0, now, t3, h3);
      && s1.0.Success? && s2.0.Success?
      && s2.1[0].usedTokenHashes == [h0, h1]
      && s3 == (Failure(InvalidToken), s2.1)
      && |SessionsOf(s3.1, userId)| == 1
  {
    var r0 := [SessionRecord(userId, sessionId, h0, createdAt, createdAt + RefreshLifetimeMs, [])];
    assert FindSession(r0, userId, sessionId) == Some(0);
    assert !AnyMatch(matches, t0, []);
    var s1 := Rotate(r0, matches, userId, sessionId, t0, now, t1, h1);
    assert s1.0.Success?;
    assert s1.1[0].usedTokenHashes == [h0] && s1.1[0].tokenHash == h1;
    assert FindSession(s1.1, userId, sessionId) == Some(0);
    assert !AnyMatch(matches, t1, [h0]);
    var s2 := Rotate(s1.1, matches, userId, sessionId, t1, now, t2, h2);
    assert s2.0.Success?;
    assert s2.1[0].usedTokenHashes == [h0, h1] && s2.1[0].tokenHash == h2;
    assert |s2.1| == 1;
    assert SessionsOf(s2.1, userId) == [s2.1[0]];
  }

  // ---------------------------------------------------------------------
  // The service

  class RefreshTokenService {
    /** bcrypt's compare. */
    const matches: Matcher
    /** The refresh-token repository. */
    var records: seq<SessionRecord>

    /** No session's current hash is among its used hashes, and no token
        matches both a session's current hash and one of its used hashes.
        Every operation keeps this, rotation given a fresh token; it rules
        out the reuse verdict (`ReuseNeedsDoubleMatch`). */
    ghost predicate Valid()
      reads this
    {
      CurrentNeverUsed(records) && NoDoubleMatch(records, matches)
    }

    constructor(matches: Matcher)
      ensures this.matches == matches && records == []
      ensures Valid()
    {
      this.matches := matches;
      records := [];
    }

    /** The repository's `createOne({ userId, tokenHash, expiresAt,
        usedTokenHashes: [] })`; the schema fills `createdAt` with now and
        `sessionId` with a fresh uuid. */
    method CreateSession(userId: string, tokenHash: string, expiresAt: int, now: int, sessionId: string)
      returns (rec: SessionRecord)
      modifies this
      ensures rec == SessionRecord(userId, sessionId, tokenHash, now, expiresAt, [])
      ensures records == old(records) + [rec]
      ensures old(Valid()) ==> Valid()
    {
      rec := SessionRecord(userId, sessionId, tokenHash, now, expiresAt, []);
      records := records + [rec];
    }

    /** `rotateToken({ userId, sessionId, refreshToken })` at time `now`,
        with the fresh uuid and bcrypt hash `issueTokenPair` will use. */
    method RotateToken(userId: string, sessionId: string, refreshToken: string, now: int,
                       freshToken: string, freshHash: string)
      returns (r: Result<Rotated, RefreshError>)
      requires matches(freshToken, freshHash)
      modifies this
      ensures (r, records) == Rotate(old(records), matches, userId, sessionId, refreshToken, now, freshToken, freshHash)
      ensures old(CurrentNeverUsed(records)) && HashUnused(old(records), freshHash) ==> CurrentNeverUsed(records)
      ensures old(Valid()) && OnlyTokenMatching(matches, freshToken) && MatchesNothingStored(old(records), matches, freshToken)
              ==> Valid()
      ensures old(Valid()) ==> r != Failure(ReusedToken)
    {
      ghost var before := records;
      if NoDoubleMatch(before, matches) {
        ReuseNeedsDoubleMatch(before, matches, userId, sessionId, refreshToken, now, freshToken, freshHash);
      }
      if MatchesNothingStored(before, matches, freshToken) {
        FreshTokenHashUnused(before, matches, freshToken, freshHash);
      }
      if CurrentNeverUsed(before) && HashUnused(before, freshHash) {
        RotateKeepsCurrentNeverUsed(before, matches, userId, sessionId, refreshToken, now, freshToken, freshHash);
      }
      if NoDoubleMatch(before, matches) && OnlyTokenMatching(matches, freshToken)
         && MatchesNothingStored(before, matches, freshToken) {
        RotateKeepsNoDoubleMatch(before, matches, userId, sessionId, refreshToken, now, freshToken, freshHash);
      }

      var found := FindSession(records, userId, sessionId);
      if found.None? {
        return Failure(NoTokenFound);
      }
      var i := found.value;
      var record := records[i];

      if !matches(refreshToken, record.tokenHash) {
        return Failure(InvalidToken);
      }

      if AnyMatch(matches, refreshToken, record.usedTokenHashes) {
        records := WithoutUser(records, userId);
        return Failure(ReusedToken);
      }

      if record.expiresAt < now {
        records := WithoutUser(records, userId);
        return Failure(TokenExpired);
      }

      var pair := IssueTokenPair(matches, Some(userId), now, freshToken, freshHash);
      record := record.(usedTokenHashes := record.usedTokenHashes + [record.tokenHash]);
      record := record.(expiresAt := pair.refreshTokenInfo.expiresAt);
      record := record.(tokenHash := pair.refreshTokenInfo.tokenHash);
      records := records[i := record];
      r := Success(Rotated(pair.accessToken, pair.refreshTokenInfo.refreshToken, sessionId));
    }

    /** `revokeAllToken({ userId })`. */
    method RevokeAllToken(userId: string) returns (ok: bool)
      modifies this
      ensures ok
      ensures records == WithoutUser(old(records), userId)
      ensures old(Valid()) ==> Valid()
    {
      records := WithoutUser(records, userId);
      ok := true;
    }

    /** `getTokenForUser({ userId })`. */
    method GetTokenForUser(userId: string) returns (result: seq<SessionRecord>)
      ensures forall x :: x in result <==> x in records && x.userId == userId
      ensures result == SessionsOf(records, userId)
    {
      result := SessionsOf(records, userId);
    }

    /** `logOut({ userId, sessionId })`: `deleteOne`, reporting how many
        records it deleted; a missing record is not an error. */
    method LogOut(userId: string, sessionId: string) returns (deletedCount: nat)
      modifies this
      ensures var f := FindSession(old(records), userId, sessionId);
        && (f.None? ==> deletedCount == 0 && records == old(records))
        && (f.Some? ==> deletedCount == 1 && records == old(records)[..f.value] + old(records)[f.value + 1..])
      ensures old(Valid()) ==> Valid()
    {
      var found := FindSession(records, userId, sessionId);
      if found.None? {
        return 0;
      }
      var i := found.value;
      ghost var before := records;
      records := records[..i] + records[i + 1..];
      forall r | r in records ensures r in before {
        var k :| 0 <= k < |records| && records[k] == r;
        assert r == if k < i then before[k] else before[k + 1];
      }
      deletedCount := 1;
    }
  }
}
