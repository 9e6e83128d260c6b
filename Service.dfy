/**
 * The service operations (app.service.ts): `info` (a user's dashboard data),
 * `dashboard`, `leaderboard` and `verifySmartKey`. Store reads are the pure
 * functions of Snapshot; `now`, the client secret and `decryptKey` are parameters.
 */
module Service {
  import opened Wrappers
  import opened Snapshot
  import opened Scoring
  import opened Ranking

  /** What `info` returns: the user with its window tweets, the breakdown and the rank. */
  datatype UserInfo = UserInfo(user: User, metadata: Metadata, userRank: Option<nat>)

  /**
   * What `info` computes once both store reads are done: `user` as fetched and
   * `users`, the fetched snapshot the leaderboard is built from.
   */
  function InfoFrom(user: User, users: seq<User>): UserInfo {
    UserInfo(user, MetadataOf(user.tweets), RankOf(Board(users), user.id))
  }

  /**
   * `info(key, fieldName)` as a function of the snapshot: None when no user holds
   * `key` in that column (the source returns `undefined`). Both store reads see
   * the same snapshot and the same window.
   */
  function InfoOf(store: seq<User>, key: string, field: KeyField, now: int): Option<UserInfo> {
    match Lookup(store, field, key)
    case None => None
    case Some(u) => Some(InfoFrom(FetchUser(u, now), Fetch(store, now)))
  }

  /** The computing part of `info` (app.service.ts:116-167): aggregate, sort, sum, locate. */
  method Summarize(user: User, users: seq<User>) returns (info: UserInfo)
    ensures info == InfoFrom(user, users)
  {
    var leaderboardData := BuildBoard(users);
    var metadata := CollectMetadata(user.tweets);
    var userRank := FindRank(leaderboardData, user.id);
    info := UserInfo(user, metadata, userRank);
  }

  /** `info` (app.service.ts:77-168): look up the user, read every user, then summarize. */
  method Info(store: seq<User>, key: string, field: KeyField, now: int) returns (r: Option<UserInfo>)
    requires field != Username
    ensures r == InfoOf(store, key, field, now)
  {
    var found := Lookup(store, field, key);
    if found.None? {
      return None;
    }
    var user := FetchUser(found.value, now);
    var users := Fetch(store, now);
    var info := Summarize(user, users);
    r := Some(info);
  }

  /**
   * `dashboard` (app.service.ts:170-174): `info` by the session's profile id.
   * None is the path where the source destructures `undefined` and crashes.
   */
  method Dashboard(store: seq<User>, profileId: string, now: int) returns (r: Option<UserInfo>)
    ensures r.None? <==> forall u :: u in store ==> u.profileId != profileId
    ensures r.Some? ==> r.value.user.profileId == profileId
    ensures r == InfoOf(store, profileId, ProfileId, now)
  {
    r := Info(store, profileId, ProfileId, now);
  }

  /** `leaderboard` (app.service.ts:21-75): every user's row, positive only, sorted. */
  method Leaderboard(store: seq<User>, now: int) returns (data: seq<Entry>)
    ensures data == Board(Fetch(store, now))
  {
    var users := Fetch(store, now);
    data := BuildBoard(users);
  }

  /** The leaderboard data, fetched with the window as written, is always empty. */
  lemma LeaderboardAlwaysEmpty(store: seq<User>, now: int)
    ensures Board(Fetch(store, now)) == []
  {
    var users := Fetch(store, now);
    forall u | u in users ensures Impressions(u.tweets) == 0 {
      WindowAlwaysEmpty(u.tweets, now);
    }
    EntriesNone(users);
  }

  /** The user `info` reports is the fetched copy of a stored user, summarized against the fetched snapshot. */
  lemma InfoUser(store: seq<User>, key: string, field: KeyField, now: int) returns (i: nat)
    requires Lookup(store, field, key).Some?
    ensures i < |store|
    ensures InfoOf(store, key, field, now) == Some(InfoFrom(Fetch(store, now)[i], Fetch(store, now)))
  {
    var u := Lookup(store, field, key).value;
    i :| 0 <= i < |store| && store[i] == u;
  }

  /** With the window as written, `info` reports no tweets, zero metadata and no rank. */
  lemma InfoAlwaysEmpty(store: seq<User>, key: string, field: KeyField, now: int)
    requires Lookup(store, field, key).Some?
    ensures var d := InfoOf(store, key, field, now).value;
      d.user.tweets == [] && d.metadata == Metadata(0, 0, 0, 0, 0) && d.userRank.None?
  {
    var u := Lookup(store, field, key).value;
    WindowAlwaysEmpty(u.tweets, now);
    LeaderboardAlwaysEmpty(store, now);
  }

  /**
   * Over any fetched snapshot with unique ids: a user is ranked exactly when
   * their impressions are positive, the row at the rank is the user's own row,
   * and the breakdown's five fields add up to at least that row's impressions.
   */
  lemma SummaryConsistent(users: seq<User>, i: nat)
    requires UniqueIds(users) && i < |users|
    ensures var d := InfoFrom(users[i], users);
      d.userRank.Some? <==> Impressions(d.user.tweets) > 0
    ensures var d := InfoFrom(users[i], users);
      d.userRank.Some? ==>
        var row := Board(users)[d.userRank.value - 1];
        row == EntryOf(d.user) && row.impressions <= Sum(d.metadata)
  {
    RankOfUser(users, i);
    MetadataCoversImpressions(users[i].tweets);
  }

  /**
   * The same facts for `info` itself: under the id column's unique constraint,
   * the found user's rank, row and breakdown agree on the fetched snapshot.
   */
  lemma InfoConsistent(store: seq<User>, key: string, field: KeyField, now: int)
    requires UniqueIds(store) && Lookup(store, field, key).Some?
    ensures var d := InfoOf(store, key, field, now).value;
      d.userRank.Some? <==> Impressions(d.user.tweets) > 0
    ensures var d := InfoOf(store, key, field, now).value;
      d.userRank.Some? ==>
        var row := Board(Fetch(store, now))[d.userRank.value - 1];
        row == EntryOf(d.user) && row.impressions <= Sum(d.metadata)
  {
    var i := InfoUser(store, key, field, now);
    FetchKeepsUniqueIds(store, now);
    SummaryConsistent(Fetch(store, now), i);
  }

  /** The outcomes `verifySmartKey` sends, with the codes of enums/statusCodes.ts. */
  datatype Response = Ok(data: UserInfo) | NotFound | Unauthorized | InternalServerError

  function StatusCode(r: Response): (code: nat)
    ensures code == 200 <==> r.Ok?
  {
    match r
    case Ok(_) => 200
    case NotFound => 404
    case Unauthorized => 401
    case InternalServerError => 500
  }

  /** The key both tokens are decrypted under: the client secret, a dash, the profile id. */
  function DerivedKey(secret: string, profileId: string): string {
    secret + "-" + profileId
  }

  /**
   * `decryptKey(token, key)`, which is not part of this model: the plaintext, or
   * None where it throws.
   */
  type Decrypt = (string, string) -> Option<string>

  /**
   * `verifySmartKey` (app.service.ts:176-200) as written: after the plaintexts
   * match, the dashboard is fetched by the SUBMITTED key string; when no user
   * holds that exact string, destructuring `undefined` throws inside the `try`
   * and the caller gets the 500 "Error decrypting key".
   */
  function SmartKeyOutcome(store: seq<User>, key: string, username: string, secret: string,
                           decrypt: Decrypt, now: int): Response
  {
    match Lookup(store, Username, username)
    case None => NotFound
    case Some(u) =>
      var derived := DerivedKey(secret, u.profileId);
      var decryptedKey := decrypt(key, derived);
      var decryptedAuthKey := decrypt(u.smartKey, derived);
      if decryptedKey.None? || decryptedAuthKey.None? then InternalServerError
      else if decryptedKey.value != decryptedAuthKey.value then Unauthorized
      else
        match InfoOf(store, key, SmartKey, now)
        case None => InternalServerError
        case Some(d) => Ok(d)
  }

  method VerifySmartKey(store: seq<User>, key: string, username: string, secret: string,
                        decrypt: Decrypt, now: int) returns (r: Response)
    ensures r == SmartKeyOutcome(store, key, username, secret, decrypt, now)
  {
    var userExist := Lookup(store, Username, username);
    if userExist.None? {
      return NotFound;
    }
    var derived := DerivedKey(secret, userExist.value.profileId);
    var decryptedKey := decrypt(key, derived);
    if decryptedKey.None? {
      return InternalServerError;
    }
    var decryptedAuthKey := decrypt(userExist.value.smartKey, derived);
    if decryptedAuthKey.None? {
      return InternalServerError;
    }
    if decryptedKey.value != decryptedAuthKey.value {
      return Unauthorized;
    }
    var info := Info(store, key, SmartKey, now);
    if info.None? {
      return InternalServerError;
    }
    r := Ok(info.value);
  }

  /** An unknown username is NotFound whatever `decryptKey` would do: it is never consulted. */
  lemma UnknownUserNotFound(store: seq<User>, key: string, username: string, secret: string,
                            decrypt: Decrypt, other: Decrypt, now: int)
    requires forall u :: u in store ==> u.username != username
    ensures SmartKeyOutcome(store, key, username, secret, decrypt, now) == NotFound
    ensures SmartKeyOutcome(store, key, username, secret, other, now) == NotFound
    ensures StatusCode(SmartKeyOutcome(store, key, username, secret, decrypt, now)) == 404
  {
  }

  /** Each failure outcome, and what an accepted key shows. */
  lemma SmartKeyOutcomeCases(store: seq<User>, key: string, username: string, secret: string,
                             decrypt: Decrypt, now: int)
    requires Lookup(store, Username, username).Some?
    ensures var u := Lookup(store, Username, username).value;
      var derived := DerivedKey(secret, u.profileId);
      var o := SmartKeyOutcome(store, key, username, secret, decrypt, now);
      && (o == Unauthorized <==>
            decrypt(key, derived).Some? && decrypt(u.smartKey, derived).Some? &&
            decrypt(key, derived).value != decrypt(u.smartKey, derived).value)
      && (decrypt(key, derived).None? || decrypt(u.smartKey, derived).None? ==> o == InternalServerError)
      && (StatusCode(o) == 401 <==> o == Unauthorized)
      && (o.Ok? ==> decrypt(key, derived) == decrypt(u.smartKey, derived) && o.data.user.smartKey == key)
  {
  }

  /**
   * Submitting the stored smart key itself always passes: both sides decrypt
   * under the same derived key, and the lookup by key finds the same user.
   */
  lemma StoredKeyAccepted(store: seq<User>, i: nat, secret: string, decrypt: Decrypt, now: int)
    requires i < |store|
    requires UniqueOn(store, Username) && UniqueOn(store, SmartKey)
    requires decrypt(store[i].smartKey, DerivedKey(secret, store[i].profileId)).Some?
    ensures var o := SmartKeyOutcome(store, store[i].smartKey, store[i].username, secret, decrypt, now);
      o.Ok? && o.data.user == FetchUser(store[i], now)
  {
    LookupUnique(store, Username, i);
    LookupUnique(store, SmartKey, i);
  }

  /**
   * The discrepancy: a second ciphertext of the same plaintext passes the
   * comparison, yet the lookup by that string finds nobody and the request ends
   * in the 500 meant for a failed decryption.
   */
  lemma ReencryptedKeyRejected(now: int)
    ensures var store := [User("1", "p1", "alice", "Alice", "token-a", [])];
      var decrypt: Decrypt := (token: string, k: string) =>
        if token == "token-a" || token == "token-b" then Some("plain") else None;
      decrypt("token-b", DerivedKey("s", "p1")) == decrypt("token-a", DerivedKey("s", "p1"))
      && SmartKeyOutcome(store, "token-b", "alice", "s", decrypt, now) == InternalServerError
  {
    var store := [User("1", "p1", "alice", "Alice", "token-a", [])];
    assert Lookup(store, Username, "alice") == Some(store[0]);
    assert "token-b" != "token-a" by { assert "token-b"[6] != "token-a"[6]; }
    assert Lookup(store, SmartKey, "token-b") == None;
  }

  /**
   * The evidently intended flow: once the plaintexts match, show the dashboard of
   * the user found by username (looked up by that user's profile id).
   */
  function SmartKeyOutcomeIntended(store: seq<User>, key: string, username: string, secret: string,
                                   decrypt: Decrypt, now: int): Response
  {
    match Lookup(store, Username, username)
    case None => NotFound
    case Some(u) =>
      var derived := DerivedKey(secret, u.profileId);
      var decryptedKey := decrypt(key, derived);
      var decryptedAuthKey := decrypt(u.smartKey, derived);
      if decryptedKey.None? || decryptedAuthKey.None? then InternalServerError
      else if decryptedKey.value != decryptedAuthKey.value then Unauthorized
      else
        match InfoOf(store, u.profileId, ProfileId, now)
        case None => InternalServerError
        case Some(d) => Ok(d)
  }

  /** Intended: matching plaintexts always show the named user's dashboard, never a 500. */
  lemma IntendedAcceptsMatchingPlaintext(store: seq<User>, key: string, username: string,
                                         secret: string, decrypt: Decrypt, now: int)
    requires UniqueOn(store, ProfileId)
    requires Lookup(store, Username, username).Some?
    requires var u := Lookup(store, Username, username).value;
      var derived := DerivedKey(secret, u.profileId);
      decrypt(key, derived).Some? && decrypt(key, derived) == decrypt(u.smartKey, derived)
    ensures var o := SmartKeyOutcomeIntended(store, key, username, secret, decrypt, now);
      o.Ok? && o.data.user == FetchUser(Lookup(store, Username, username).value, now)
  {
    var u := Lookup(store, Username, username).value;
    var i :| 0 <= i < |store| && store[i] == u;
    LookupUnique(store, ProfileId, i);
  }

  /** A mixed user: 7 impressions from the referenced tweet, both tweets counted. */
  lemma MixedTweetsScenario()
    ensures var u := User("a", "pa", "a", "A", "ka", [
        Tweet(0, true, 5, 2, 0, 0, 0),
        Tweet(0, false, 100, 0, 0, 0, 0)]);
      EntryOf(u).impressions == 7 && EntryOf(u).tweets == 2
  {
    var t0, t1 := Tweet(0, true, 5, 2, 0, 0, 0), Tweet(0, false, 100, 0, 0, 0, 0);
    assert [t0, t1][..1] == [t0];
    assert [t0][..0] == [];
    assert Impressions([t0]) == 7;
    assert Impressions([t0, t1]) == 7;
  }
}
