/**
 * The leaderboard (app.service.ts `leaderboard` and `info`): one entry per
 * user whose impressions are positive, sorted in place by impressions,
 * highest first, with the stable order of JavaScript's `Array.prototype.sort`
 * (ties keep their input order); and the rank lookup `findIndex` + 1.
 */
module Ranking {
  import opened Wrappers
  import opened Snapshot
  import opened Scoring

  /**
   * A leaderboard row. `leaderboard` sends username, displayName, tweets and
   * impressions; `info` keeps id, tweets and impressions. One row type holds both.
   */
  datatype Entry = Entry(id: string, username: string, displayName: string, tweets: nat, impressions: nat)

  /** The row built for a fetched user: `tweets` counts every window tweet, scored or not. */
  function EntryOf(u: User): Entry {
    Entry(u.id, u.username, u.displayName, |u.tweets|, Impressions(u.tweets))
  }

  /** The rows pushed by the aggregation loop, in the order of the users. */
  function Entries(users: seq<User>): (r: seq<Entry>)
    ensures |r| <= |users|
    ensures forall u :: u in users && Impressions(u.tweets) > 0 ==> EntryOf(u) in r
    ensures forall e :: e in r ==> e.impressions > 0
  {
    if users == [] then []
    else
      var init, last := users[..|users| - 1], users[|users| - 1];
      assert forall u :: u in users ==> u in init || u == last;
      assert forall u :: u in init ==> u in users;
      Entries(init) + (if Impressions(last.tweets) > 0 then [EntryOf(last)] else [])
  }

  /** Every row was built for some user of the snapshot. */
  lemma {:induction false} EntrySource(users: seq<User>, e: Entry) returns (j: nat)
    requires e in Entries(users)
    ensures j < |users| && e == EntryOf(users[j])
  {
    var init, last := users[..|users| - 1], users[|users| - 1];
    if e in Entries(init) {
      j := EntrySource(init, e);
      assert init[j] == users[j];
    } else {
      j := |users| - 1;
    }
  }

  /** Highest impressions first. */
  ghost predicate Sorted(s: seq<Entry>) {
    forall i, j :: 0 <= i < j < |s| ==> s[i].impressions >= s[j].impressions
  }

  /** Inserts `x` behind every row with impressions at least its own (it came last). */
  function Insert(x: Entry, s: seq<Entry>): seq<Entry> {
    if s == [] || x.impressions <= s[|s| - 1].impressions then s + [x]
    else Insert(x, s[..|s| - 1]) + [s[|s| - 1]]
  }

  /** Inserting adds `x` and loses nothing. */
  lemma {:induction false} InsertPermutes(x: Entry, s: seq<Entry>)
    ensures multiset(Insert(x, s)) == multiset(s) + multiset{x}
  {
    if s != [] && x.impressions > s[|s| - 1].impressions {
      assert s == s[..|s| - 1] + [s[|s| - 1]];
      InsertPermutes(x, s[..|s| - 1]);
    }
  }

  /** Stable insertion sort, highest impressions first. */
  function SortDesc(s: seq<Entry>): seq<Entry> {
    if s == [] then [] else Insert(s[|s| - 1], SortDesc(s[..|s| - 1]))
  }

  /** The sort keeps every row, as often as it occurs. */
  lemma {:induction false} SortDescPermutes(s: seq<Entry>)
    ensures multiset(SortDesc(s)) == multiset(s)
  {
    if s != [] {
      assert s == s[..|s| - 1] + [s[|s| - 1]];
      SortDescPermutes(s[..|s| - 1]);
      InsertPermutes(s[|s| - 1], SortDesc(s[..|s| - 1]));
    }
  }

  lemma {:induction false} InsertSorted(x: Entry, s: seq<Entry>)
    requires Sorted(s)
    ensures Sorted(Insert(x, s))
  {
    if s == [] || x.impressions <= s[|s| - 1].impressions {
    } else {
      var init, last := s[..|s| - 1], s[|s| - 1];
      InsertSorted(x, init);
      InsertPermutes(x, init);
      var r := Insert(x, init);
      forall i | 0 <= i < |r| ensures r[i].impressions >= last.impressions {
        assert r[i] in multiset(r);
        assert r[i] == x || r[i] in init;
      }
    }
  }

  /** The sort orders the rows by impressions, highest first. */
  lemma {:induction false} SortDescSorted(s: seq<Entry>)
    ensures Sorted(SortDesc(s))
  {
    if s != [] {
      SortDescSorted(s[..|s| - 1]);
      InsertSorted(s[|s| - 1], SortDesc(s[..|s| - 1]));
    }
  }

  /** The rows with impressions `k`, in order: stability means the sort keeps this subsequence. */
  function WithImpressions(s: seq<Entry>, k: nat): seq<Entry> {
    if s == [] then []
    else
      var last := s[|s| - 1];
      WithImpressions(s[..|s| - 1], k) + (if last.impressions == k then [last] else [])
  }

  lemma {:induction false} WithImpressionsAppend(a: seq<Entry>, b: seq<Entry>, k: nat)
    ensures WithImpressions(a + b, k) == WithImpressions(a, k) + WithImpressions(b, k)
    decreases |b|
  {
    if b == [] {
      assert a + b == a;
    } else {
      assert (a + b)[..|a + b| - 1] == a + b[..|b| - 1];
      WithImpressionsAppend(a, b[..|b| - 1], k);
    }
  }

  lemma WithImpressionsSingle(x: Entry, k: nat)
    ensures WithImpressions([x], k) == if x.impressions == k then [x] else []
  {
    assert [x][..0] == [];
  }

  lemma {:induction false} InsertStable(x: Entry, s: seq<Entry>, k: nat)
    ensures WithImpressions(Insert(x, s), k) == WithImpressions(s, k) + WithImpressions([x], k)
  {
    if s == [] || x.impressions <= s[|s| - 1].impressions {
      assert Insert(x, s) == s + [x];
      WithImpressionsAppend(s, [x], k);
    } else {
      var init, last := s[..|s| - 1], s[|s| - 1];
      assert Insert(x, s) == Insert(x, init) + [last];
      assert init + [last] == s;
      var wx, wl := WithImpressions([x], k), WithImpressions([last], k);
      // `last` has fewer impressions than `x`, so at most one of them has impressions `k`
      assert wx + wl == wl + wx by {
        WithImpressionsSingle(x, k);
        WithImpressionsSingle(last, k);
        if x.impressions == k {
          assert wl == [];
        } else {
          assert wx == [];
        }
      }
      calc {
        WithImpressions(Insert(x, s), k);
        { WithImpressionsAppend(Insert(x, init), [last], k); }
        WithImpressions(Insert(x, init), k) + wl;
        { InsertStable(x, init, k); }
        WithImpressions(init, k) + wx + wl;
        WithImpressions(init, k) + (wl + wx);
        { WithImpressionsAppend(init, [last], k); }
        WithImpressions(s, k) + wx;
      }
    }
  }

  /** Stability: among rows with equal impressions the sort keeps the input order. */
  lemma {:induction false} SortDescStable(s: seq<Entry>, k: nat)
    ensures WithImpressions(SortDesc(s), k) == WithImpressions(s, k)
  {
    if s != [] {
      var init, last := s[..|s| - 1], s[|s| - 1];
      assert SortDesc(s) == Insert(last, SortDesc(init));
      assert init + [last] == s;
      calc {
        WithImpressions(SortDesc(s), k);
        { InsertStable(last, SortDesc(init), k); }
        WithImpressions(SortDesc(init), k) + WithImpressions([last], k);
        { SortDescStable(init, k); }
        WithImpressions(init, k) + WithImpressions([last], k);
        { WithImpressionsAppend(init, [last], k); }
        WithImpressions(s, k);
      }
    }
  }

  /** The leaderboard over a fetched snapshot: the positive rows, sorted. */
  function Board(users: seq<User>): seq<Entry> {
    SortDesc(Entries(users))
  }

  /** What the leaderboard promises: sorted, positive, a stable permutation of the rows. */
  lemma BoardProperties(users: seq<User>)
    ensures Sorted(Board(users))
    ensures multiset(Board(users)) == multiset(Entries(users))
    ensures forall e :: e in Board(users) ==> e.impressions > 0
    ensures forall k :: WithImpressions(Board(users), k) == WithImpressions(Entries(users), k)
  {
    SortDescSorted(Entries(users));
    SortDescPermutes(Entries(users));
    forall k { SortDescStable(Entries(users), k); }
    forall e | e in Board(users) ensures e.impressions > 0 {
      assert e in multiset(Board(users));
    }
  }

  /** A snapshot in which nobody scores yields no rows. */
  lemma {:induction false} EntriesNone(users: seq<User>)
    requires forall u :: u in users ==> Impressions(u.tweets) == 0
    ensures Entries(users) == []
  {
    if users != [] {
      assert forall u :: u in users[..|users| - 1] ==> u in users;
      EntriesNone(users[..|users| - 1]);
    }
  }

  /** A user with positive impressions has a row, so their id is found. */
  lemma RankedWhenPositive(users: seq<User>, i: nat)
    requires i < |users| && Impressions(users[i].tweets) > 0
    ensures RankOf(Board(users), users[i].id).Some?
  {
    var u, board := users[i], Board(users);
    SortDescPermutes(Entries(users));
    assert EntryOf(u) in Entries(users);
    assert EntryOf(u) in multiset(board);
    var m :| 0 <= m < |board| && board[m] == EntryOf(u);
    assert board[m].id == u.id;
  }

  /** With unique ids, the row found for a user's id is the row built for that user. */
  lemma RankedRowIsUsers(users: seq<User>, i: nat)
    requires UniqueIds(users) && i < |users|
    requires RankOf(Board(users), users[i].id).Some?
    ensures Board(users)[RankOf(Board(users), users[i].id).value - 1] == EntryOf(users[i])
    ensures Impressions(users[i].tweets) > 0
  {
    var board := Board(users);
    var k := RankOf(board, users[i].id).value;
    var e := board[k - 1];
    assert e.id == users[i].id;
    assert e in multiset(board);
    SortDescPermutes(Entries(users));
    assert e in Entries(users);
    var m := EntrySource(users, e);
    assert users[m].id == e.id;
    assert m == i;
  }

  /**
   * With unique ids, a user is ranked exactly when their impressions are
   * positive, and the row at their rank is the row built for them.
   */
  lemma RankOfUser(users: seq<User>, i: nat)
    requires UniqueIds(users) && i < |users|
    ensures RankOf(Board(users), users[i].id).Some? <==> Impressions(users[i].tweets) > 0
    ensures RankOf(Board(users), users[i].id).Some? ==>
      Board(users)[RankOf(Board(users), users[i].id).value - 1] == EntryOf(users[i])
  {
    if Impressions(users[i].tweets) > 0 {
      RankedWhenPositive(users, i);
    }
    if RankOf(Board(users), users[i].id).Some? {
      RankedRowIsUsers(users, i);
    }
  }

  /** `findIndex(u => u.id === id)` turned into a 1-based rank, or null. */
  function RankOf(board: seq<Entry>, id: string): (r: Option<nat>)
    ensures r.None? <==> forall i :: 0 <= i < |board| ==> board[i].id != id
    ensures r.Some? ==> 1 <= r.value <= |board| && board[r.value - 1].id == id
    ensures r.Some? ==> forall i :: 0 <= i < r.value - 1 ==> board[i].id != id
  {
    if board == [] then None
    else if board[0].id == id then Some(1)
    else
      match RankOf(board[1..], id)
      case None => None
      case Some(k) => Some(k + 1)
  }

  /** The aggregation loop (app.service.ts:49-66, repeated at :122-138). */
  method BuildEntries(users: seq<User>) returns (entries: seq<Entry>)
    ensures entries == Entries(users)
  {
    entries := [];
    for i := 0 to |users|
      invariant entries == Entries(users[..i])
    {
      var user := users[i];
      assert users[..i + 1][..i] == users[..i];
      var impressions := UserImpressions(user.tweets);
      if impressions > 0 {
        entries := entries + [Entry(user.id, user.username, user.displayName, |user.tweets|, impressions)];
      }
    }
    assert users[..|users|] == users;
  }

  /** One more input row sorted is the old sorted prefix with that row inserted. */
  lemma SortDescPrefix(s: seq<Entry>, i: nat)
    requires i < |s|
    ensures SortDesc(s[..i + 1]) == Insert(s[i], SortDesc(s[..i]))
  {
    assert s[..i + 1][..i] == s[..i];
  }

  /** Where `Insert` puts `x`: after the rows with at least its impressions, before the rest. */
  lemma {:induction false} InsertPosition(x: Entry, p: seq<Entry>, j: nat)
    requires j <= |p|
    requires j == 0 || p[j - 1].impressions >= x.impressions
    requires forall k :: j <= k < |p| ==> p[k].impressions < x.impressions
    ensures Insert(x, p) == p[..j] + [x] + p[j..]
  {
    if |p| > j {
      var init := p[..|p| - 1];
      assert init[..j] == p[..j];
      InsertPosition(x, init, j);
      assert init[j..] + [p[|p| - 1]] == p[j..];
    }
  }

  /** A prefix kept, `x` at `j`, the rest shifted right by one: `x` inserted at `j`. */
  lemma ShiftedIsInserted(b: seq<Entry>, p: seq<Entry>, x: Entry, j: nat)
    requires |b| == |p| + 1 && j <= |p|
    requires forall k :: 0 <= k < j ==> b[k] == p[k]
    requires b[j] == x
    requires forall k :: j < k < |b| ==> b[k] == p[k - 1]
    ensures b == p[..j] + [x] + p[j..]
  {
    var inserted := p[..j] + [x] + p[j..];
    forall k | 0 <= k < |b| ensures b[k] == inserted[k] {
      if k > j {
        assert inserted[k] == p[j..][k - j - 1];
      }
    }
  }

  /** One step of the sort: row `i` moves left past the rows with fewer impressions. */
  method InsertRow(a: array<Entry>, i: nat)
    requires i < a.Length
    modifies a
    ensures a[..i + 1] == Insert(old(a[i]), old(a[..i]))
    ensures forall k :: i < k < a.Length ==> a[k] == old(a[k])
  {
    var x := a[i];
    ghost var p := a[..i];
    var j := i;
    while j > 0 && a[j - 1].impressions < x.impressions
      invariant 0 <= j <= i
      invariant forall k :: 0 <= k < j ==> a[k] == p[k]
      invariant forall k :: j < k <= i ==> a[k] == p[k - 1]
      invariant forall k :: i < k < a.Length ==> a[k] == old(a[k])
      invariant forall k :: j <= k < i ==> p[k].impressions < x.impressions
    {
      a[j] := a[j - 1];
      j := j - 1;
    }
    a[j] := x;
    InsertPosition(x, p, j);
    ShiftedIsInserted(a[..i + 1], p, x, j);
  }

  /**
   * `leaderboardData.sort((a, b) => b.impressions - a.impressions)` in place,
   * as an insertion sort: stable, like the sort it models.
   */
  method SortByImpressions(a: array<Entry>)
    modifies a
    ensures a[..] == SortDesc(old(a[..]))
  {
    ghost var s := a[..];
    for i := 0 to a.Length
      invariant a[..i] == SortDesc(s[..i])
      invariant forall k :: i <= k < a.Length ==> a[k] == s[k]
    {
      InsertRow(a, i);
      SortDescPrefix(s, i);
    }
    assert a[..a.Length] == a[..];
    assert s[..a.Length] == s;
  }

  /** The rank lookup (app.service.ts:164-165). */
  method FindRank(board: seq<Entry>, id: string) returns (userRank: Option<nat>)
    ensures userRank == RankOf(board, id)
  {
    var userIndex := -1;
    var i := 0;
    while i < |board| && userIndex == -1
      invariant 0 <= i <= |board|
      invariant forall j :: 0 <= j < i && (userIndex == -1 || j < userIndex) ==> board[j].id != id
      invariant userIndex == -1 || (0 <= userIndex < i && board[userIndex].id == id)
    {
      if board[i].id == id {
        userIndex := i;
      }
      i := i + 1;
    }
    userRank := if userIndex != -1 then Some(userIndex + 1) else None;
  }

  /** Aggregate, copy into an array, sort in place: the leaderboard for a fetched snapshot. */
  method BuildBoard(users: seq<User>) returns (board: seq<Entry>)
    ensures board == Board(users)
  {
    var entries := BuildEntries(users);
    var leaderboardData := new Entry[|entries|](i requires 0 <= i < |entries| => entries[i]);
    assert leaderboardData[..] == entries;
    SortByImpressions(leaderboardData);
    board := leaderboardData[..];
  }
}
