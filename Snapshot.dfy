/**
 * The in-memory snapshot the service reads from its store: users, each owning
 * time-stamped tweets with five engagement metrics. Timestamps are integer
 * milliseconds. The store's filtered reads (`findMany` / `findUnique` with a
 * `createdAt` range) become the pure functions Fetch and Lookup.
 */
module Snapshot {
  import opened Wrappers

  datatype Tweet = Tweet(
    createdAt: int,
    referenced: bool,
    like: nat,
    retweet: nat,
    reply: nat,
    impression: nat,
    quote: nat)

  datatype User = User(
    id: string,
    profileId: string,
    username: string,
    displayName: string,
    smartKey: string,
    tweets: seq<Tweet>)

  /** Seven days in milliseconds: the offset the service adds to `now`. */
  const SevenDays: int := 7 * 24 * 60 * 60 * 1000

  /**
   * The window bound the service computes: `sevenDays` is `now` moved seven
   * days FORWARD, and the store is asked for `createdAt >= sevenDays` and
   * `createdAt <= now`.
   */
  function WindowStart(now: int): (start: int)
    ensures start > now
  {
    now + SevenDays
  }

  predicate InWindow(t: Tweet, now: int) {
    WindowStart(now) <= t.createdAt <= now
  }

  /** The window as written admits no timestamp at all. */
  lemma WindowIsEmpty(t: Tweet, now: int)
    ensures !InWindow(t, now)
  {
  }

  /** The tweets of `ts` that the store returns for the window at `now`, in stored order. */
  function Window(ts: seq<Tweet>, now: int): (r: seq<Tweet>)
    ensures |r| <= |ts|
    ensures forall t :: t in r <==> t in ts && InWindow(t, now)
    ensures forall t :: multiset(r)[t] == if InWindow(t, now) then multiset(ts)[t] else 0
  {
    if ts == [] then []
    else
      var last := ts[|ts| - 1];
      assert ts == ts[..|ts| - 1] + [last];
      Window(ts[..|ts| - 1], now) + (if InWindow(last, now) then [last] else [])
  }

  lemma {:induction false} WindowAlwaysEmpty(ts: seq<Tweet>, now: int)
    ensures Window(ts, now) == []
  {
    if ts != [] {
      WindowAlwaysEmpty(ts[..|ts| - 1], now);
      WindowIsEmpty(ts[|ts| - 1], now);
    }
  }

  /** A user as the store returns it: the same record with only its window tweets. */
  function FetchUser(u: User, now: int): (v: User)
    ensures v.id == u.id && v.username == u.username && v.profileId == u.profileId
    ensures v.displayName == u.displayName && v.smartKey == u.smartKey
    ensures forall t :: t in v.tweets <==> t in u.tweets && InWindow(t, now)
    ensures forall t :: multiset(v.tweets)[t] == if InWindow(t, now) then multiset(u.tweets)[t] else 0
  {
    u.(tweets := Window(u.tweets, now))
  }

  /** `findMany` with the window filter on the tweets relation: every user, in stored order. */
  function Fetch(store: seq<User>, now: int): (r: seq<User>)
    ensures |r| == |store|
    ensures forall i :: 0 <= i < |store| ==> r[i] == FetchUser(store[i], now)
  {
    seq(|store|, i requires 0 <= i < |store| => FetchUser(store[i], now))
  }

  /** Fetching keeps the users' ids, so it keeps them unique. */
  lemma FetchKeepsUniqueIds(store: seq<User>, now: int)
    requires UniqueIds(store)
    ensures UniqueIds(Fetch(store, now))
  {
  }

  /** The unique columns a user can be looked up by. */
  datatype KeyField = ProfileId | SmartKey | Username

  function KeyOf(u: User, field: KeyField): string {
    match field
    case ProfileId => u.profileId
    case SmartKey => u.smartKey
    case Username => u.username
  }

  /** The store's unique constraint on a column. */
  ghost predicate UniqueOn(store: seq<User>, field: KeyField) {
    forall i, j :: 0 <= i < j < |store| ==> KeyOf(store[i], field) != KeyOf(store[j], field)
  }

  ghost predicate UniqueIds(store: seq<User>) {
    forall i, j :: 0 <= i < j < |store| ==> store[i].id != store[j].id
  }

  /** `findUnique` on one column: the first user whose column equals `key`, if any. */
  function Lookup(store: seq<User>, field: KeyField, key: string): (r: Option<User>)
    ensures r.None? <==> forall u :: u in store ==> KeyOf(u, field) != key
    ensures r.Some? ==> r.value in store && KeyOf(r.value, field) == key
  {
    if store == [] then None
    else if KeyOf(store[0], field) == key then Some(store[0])
    else Lookup(store[1..], field, key)
  }

  /** Under the unique constraint, the lookup finds exactly the user holding the key. */
  lemma LookupUnique(store: seq<User>, field: KeyField, i: nat)
    requires UniqueOn(store, field)
    requires i < |store|
    ensures Lookup(store, field, KeyOf(store[i], field)) == Some(store[i])
  {
  }
}
