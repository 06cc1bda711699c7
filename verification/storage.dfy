/**
 * The in-memory store of the leaderboard server. A JavaScript Map iterates
 * in insertion order, and the queries below depend on that order, so each
 * map is kept as the sequence of its values in insertion order. Ids are
 * issued from counters that only grow, so every key is fresh when it is set
 * and setting it appends.
 */
module Storage {
  import opened Common
  import opened Schema

  /** The number of entries getLeaderboard returns at most. */
  const LeaderboardSize: nat := 10

  // ---------------------------------------------------------------------------
  // Ids

  function UserIds(users: seq<User>): seq<int>
  {
    seq(|users|, i requires 0 <= i < |users| => users[i].id)
  }

  function EntryIds(entries: seq<LeaderboardEntry>): seq<int>
  {
    seq(|entries|, i requires 0 <= i < |entries| => entries[i].id)
  }

  /** Ids issued by a counter now at `next`: positive, below `next`, increasing in insertion order. */
  predicate IssuedIds(ids: seq<int>, next: int)
  {
    && (forall i :: 0 <= i < |ids| ==> 1 <= ids[i] < next)
    && (forall i, j :: 0 <= i < j < |ids| ==> ids[i] < ids[j])
  }

  /** Issuing the counter's value and moving the counter on keeps the ids issued. */
  lemma IssueNext(ids: seq<int>, next: int)
    requires IssuedIds(ids, next) && next >= 1
    ensures IssuedIds(ids + [next], next + 1)
    ensures forall i :: 0 <= i < |ids| ==> ids[i] != next
  {
  }

  // ---------------------------------------------------------------------------
  // Sorting by score

  predicate ScoresNonIncreasing(s: seq<LeaderboardEntry>)
  {
    forall i, j :: 0 <= i < j < |s| ==> s[i].score >= s[j].score
  }

  /** Places `e` before the first entry that does not score more. */
  function InsertByScore(e: LeaderboardEntry, sorted: seq<LeaderboardEntry>): (r: seq<LeaderboardEntry>)
    requires ScoresNonIncreasing(sorted)
    ensures ScoresNonIncreasing(r)
    ensures multiset(r) == multiset(sorted) + multiset{e}
    ensures |r| == |sorted| + 1
  {
    if sorted == [] || e.score >= sorted[0].score then
      [e] + sorted
    else
      var rest := InsertByScore(e, sorted[1..]);
      assert sorted == [sorted[0]] + sorted[1..];
      BoundedAfterInsert(e, sorted, rest);
      [sorted[0]] + rest
  }

  /** Inserting into the tail an entry scoring less than the head keeps every entry at most the head's score. */
  lemma BoundedAfterInsert(e: LeaderboardEntry, sorted: seq<LeaderboardEntry>, rest: seq<LeaderboardEntry>)
    requires ScoresNonIncreasing(sorted) && sorted != [] && e.score < sorted[0].score
    requires multiset(rest) == multiset(sorted[1..]) + multiset{e}
    ensures forall i :: 0 <= i < |rest| ==> rest[i].score <= sorted[0].score
  {
    forall i | 0 <= i < |rest|
      ensures rest[i].score <= sorted[0].score
    {
      assert rest[i] in multiset(rest);
      if rest[i] != e {
        assert rest[i] in multiset(sorted[1..]);
        var j :| 1 <= j < |sorted| && sorted[j] == rest[i];
      }
    }
  }

  /**
   * Array.prototype.sort with the comparator (a, b) => b.score - a.score:
   * highest score first; the sort is stable, so equal scores keep their order.
   */
  function SortByScore(s: seq<LeaderboardEntry>): (r: seq<LeaderboardEntry>)
    ensures ScoresNonIncreasing(r)
    ensures multiset(r) == multiset(s)
    ensures |r| == |s|
  {
    if s == [] then
      []
    else
      assert s == [s[0]] + s[1..];
      InsertByScore(s[0], SortByScore(s[1..]))
  }

  /**
   * The first `k` entries of a sorted sequence are sorted, are taken from it,
   * and score at least as much as every entry left out.
   */
  lemma TopOfSorted(sorted: seq<LeaderboardEntry>, k: nat)
    requires ScoresNonIncreasing(sorted) && k <= |sorted|
    ensures ScoresNonIncreasing(sorted[..k])
    ensures multiset(sorted[..k]) <= multiset(sorted)
    ensures forall e :: e in multiset(sorted) - multiset(sorted[..k]) ==>
              forall i :: 0 <= i < k ==> e.score <= sorted[..k][i].score
  {
    assert sorted == sorted[..k] + sorted[k..];
    assert multiset(sorted) == multiset(sorted[..k]) + multiset(sorted[k..]);
    forall e | e in multiset(sorted) - multiset(sorted[..k])
      ensures forall i :: 0 <= i < k ==> e.score <= sorted[..k][i].score
    {
      assert e in multiset(sorted[k..]);
      var j :| k <= j < |sorted| && sorted[j] == e;
    }
  }

  // ---------------------------------------------------------------------------
  // Search

  /** Array.prototype.find, by position: the first element satisfying `p`. */
  function FindFirst<T>(s: seq<T>, p: T -> bool): (r: Option<nat>)
    ensures r.Some? ==> r.value < |s| && p(s[r.value]) && forall j :: 0 <= j < r.value ==> !p(s[j])
    ensures r.None? ==> forall j :: 0 <= j < |s| ==> !p(s[j])
  {
    if s == [] then None
    else if p(s[0]) then Some(0)
    else match FindFirst(s[1..], p)
      case None => None
      case Some(i) => Some(i + 1)
  }

  /** The sample entries the store starts with. */
  function SampleEntries(): seq<LeaderboardEntry>
  {
    [ LeaderboardEntry(1, "ProGamer", 2450, 15, 120),
      LeaderboardEntry(2, "MemoryMaster", 1890, 12, 145),
      LeaderboardEntry(3, "FastFingers", 1560, 10, 98),
      LeaderboardEntry(4, "PatternPro", 1340, 9, 156),
      LeaderboardEntry(5, "ColorKing", 1120, 8, 189) ]
  }

  class MemStorage {
    /** The values of the users map, in insertion order. */
    var users: seq<User>
    /** The values of the leaderboard map, in insertion order. */
    var leaderboardEntries: seq<LeaderboardEntry>
    var currentUserId: int
    var currentLeaderboardId: int

    ghost predicate Valid()
      reads this
    {
      && currentUserId >= 1 && currentLeaderboardId >= 1
      && IssuedIds(UserIds(users), currentUserId)
      && IssuedIds(EntryIds(leaderboardEntries), currentLeaderboardId)
    }

    /** A store with no users and the five sample entries, ids 1 to 5; the next entry id is 6. */
    constructor ()
      ensures Valid()
      ensures users == [] && currentUserId == 1
      ensures leaderboardEntries == SampleEntries() && currentLeaderboardId == 6
    {
      users := [];
      leaderboardEntries := [];
      currentUserId := 1;
      currentLeaderboardId := 1;
      new;
      InitializeLeaderboard();
    }

    /** initializeLeaderboard: sets each sample entry under its id, then moves the counter past them. */
    method InitializeLeaderboard()
      requires leaderboardEntries == []
      modifies this`leaderboardEntries, this`currentLeaderboardId
      ensures leaderboardEntries == SampleEntries() && currentLeaderboardId == 6
    {
      var samples := SampleEntries();
      for i := 0 to |samples|
        invariant leaderboardEntries == samples[..i]
      {
        leaderboardEntries := leaderboardEntries + [samples[i]];
      }
      currentLeaderboardId := 6;
    }

    /** getUser: the user stored under `id`, if any. */
    function GetUser(id: int): (r: Option<User>)
      reads this
      ensures r.Some? ==> r.value in users && r.value.id == id
      ensures r.None? ==> forall u :: u in users ==> u.id != id
    {
      match FindFirst(users, (u: User) => u.id == id)
      case None => None
      case Some(i) => Some(users[i])
    }

    /** getUserByUsername: the first user, in insertion order, with that username. */
    function GetUserByUsername(username: string): (r: Option<User>)
      reads this
      ensures r.Some? ==> exists i :: 0 <= i < |users| && users[i] == r.value && users[i].username == username
                            && forall j :: 0 <= j < i ==> users[j].username != username
      ensures r.None? ==> forall u :: u in users ==> u.username != username
    {
      match FindFirst(users, (u: User) => u.username == username)
      case None => None
      case Some(i) => Some(users[i])
    }

    /** createUser: the user under the next user id, which the counter then moves past. */
    method CreateUser(insertUser: InsertUser) returns (user: User)
      requires Valid()
      modifies this`users, this`currentUserId
      ensures Valid()
      ensures user == User(old(currentUserId), insertUser.username, insertUser.password)
      ensures forall u :: u in old(users) ==> u.id != user.id
      ensures users == old(users) + [user]
      ensures currentUserId == old(currentUserId) + 1
    {
      var id := currentUserId;
      currentUserId := currentUserId + 1;
      user := User(id, insertUser.username, insertUser.password);
      IssueNext(UserIds(users), id);
      forall u | u in users
        ensures u.id != id
      {
        var i :| 0 <= i < |users| && users[i] == u;
        assert UserIds(users)[i] == u.id;
      }
      assert UserIds(users + [user]) == UserIds(users) + [id];
      users := users + [user];
    }

    /**
     * getLeaderboard: at most ten entries, highest score first, each of them
     * stored; no entry left out scores more than one returned, and with ten
     * or fewer stored, all are returned.
     */
    function GetLeaderboard(): (r: seq<LeaderboardEntry>)
      reads this
      ensures |r| == if |leaderboardEntries| < LeaderboardSize then |leaderboardEntries| else LeaderboardSize
      ensures ScoresNonIncreasing(r)
      ensures multiset(r) <= multiset(leaderboardEntries)
      ensures |leaderboardEntries| <= LeaderboardSize ==> multiset(r) == multiset(leaderboardEntries)
      ensures forall e :: e in multiset(leaderboardEntries) - multiset(r) ==>
                forall i :: 0 <= i < |r| ==> e.score <= r[i].score
    {
      var sorted := SortByScore(leaderboardEntries);
      var k := if |sorted| < LeaderboardSize then |sorted| else LeaderboardSize;
      TopOfSorted(sorted, k);
      assert k == |sorted| ==> sorted[..k] == sorted;
      sorted[..k]
    }

    /** addLeaderboardEntry: the entry under the next entry id, which the counter then moves past. */
    method AddLeaderboardEntry(insertEntry: InsertLeaderboardEntry) returns (entry: LeaderboardEntry)
      requires Valid()
      modifies this`leaderboardEntries, this`currentLeaderboardId
      ensures Valid()
      ensures entry == LeaderboardEntry(old(currentLeaderboardId), insertEntry.playerName, insertEntry.score,
                                        insertEntry.level, insertEntry.timeCompleted)
      ensures forall e :: e in old(leaderboardEntries) ==> e.id != entry.id
      ensures leaderboardEntries == old(leaderboardEntries) + [entry]
      ensures currentLeaderboardId == old(currentLeaderboardId) + 1
    {
      var id := currentLeaderboardId;
      currentLeaderboardId := currentLeaderboardId + 1;
      entry := LeaderboardEntry(id, insertEntry.playerName, insertEntry.score, insertEntry.level, insertEntry.timeCompleted);
      IssueNext(EntryIds(leaderboardEntries), id);
      forall e | e in leaderboardEntries
        ensures e.id != id
      {
        var i :| 0 <= i < |leaderboardEntries| && leaderboardEntries[i] == e;
        assert EntryIds(leaderboardEntries)[i] == e.id;
      }
      assert EntryIds(leaderboardEntries + [entry]) == EntryIds(leaderboardEntries) + [id];
      leaderboardEntries := leaderboardEntries + [entry];
    }
  }
}
