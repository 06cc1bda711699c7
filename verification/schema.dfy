/**
 * The shared record types of the leaderboard and the validation that a
 * submitted entry passes before it is stored: the player name is 1 to 20
 * characters of letters, digits, whitespace, '-', '_' and '.', and is stored
 * trimmed; the score is an integer from 0 to 1,000,000 and the level an
 * integer from 1 to 50.
 */
module Schema {
  import opened Common

  datatype User = User(id: int, username: string, password: string)
  datatype InsertUser = InsertUser(username: string, password: string)

  datatype LeaderboardEntry = LeaderboardEntry(id: int, playerName: string, score: int, level: int, timeCompleted: int)
  datatype InsertLeaderboardEntry = InsertLeaderboardEntry(playerName: string, score: int, level: int, timeCompleted: int)

  /** A submitted entry as it arrives: its scores are JSON numbers, not yet known to be integers. */
  datatype EntryInput = EntryInput(playerName: string, score: real, level: real, timeCompleted: int)

  /** The field a failed check belongs to. */
  datatype Field = PlayerName | Score | Level

  /** What a failed check found: below a minimum, above a maximum, not matching the pattern, not an integer. */
  datatype IssueCode = TooSmall | TooBig | InvalidString | NotInteger

  /** One failed check of the entry schema. */
  datatype Issue = Issue(path: Field, code: IssueCode)

  const MaxNameLength: nat := 20
  const MaxScore: int := 1000000
  const MinLevel: int := 1
  const MaxLevel: int := 50

  // ---------------------------------------------------------------------------
  // Characters

  /** The characters `\s` matches and String.prototype.trim removes. */
  predicate IsJsWhitespace(c: char)
  {
    var n := c as int;
    || 0x09 <= n <= 0x0D || n == 0x20 || n == 0xA0 || n == 0x1680
    || 0x2000 <= n <= 0x200A || n == 0x2028 || n == 0x2029 || n == 0x202F
    || n == 0x205F || n == 0x3000 || n == 0xFEFF
  }

  /** One character of the class [a-zA-Z0-9\s\-_\.]. */
  predicate IsNameChar(c: char)
  {
    || 'a' <= c <= 'z' || 'A' <= c <= 'Z' || '0' <= c <= '9'
    || IsJsWhitespace(c) || c == '-' || c == '_' || c == '.'
  }

  /** The name pattern ^[a-zA-Z0-9\s\-_\.]+$: one or more name characters. */
  predicate MatchesNamePattern(name: string)
  {
    |name| >= 1 && forall i :: 0 <= i < |name| ==> IsNameChar(name[i])
  }

  // ---------------------------------------------------------------------------
  // Trimming

  /** The number of whitespace characters `s` starts with. */
  function LeadingWhitespace(s: string): (n: nat)
    ensures n <= |s|
    ensures forall i :: 0 <= i < n ==> IsJsWhitespace(s[i])
    ensures n < |s| ==> !IsJsWhitespace(s[n])
  {
    if |s| > 0 && IsJsWhitespace(s[0]) then 1 + LeadingWhitespace(s[1..]) else 0
  }

  /** The number of whitespace characters `s` ends with. */
  function TrailingWhitespace(s: string): (n: nat)
    ensures n <= |s|
    ensures forall i :: |s| - n <= i < |s| ==> IsJsWhitespace(s[i])
    ensures n < |s| ==> !IsJsWhitespace(s[|s| - n - 1])
  {
    if |s| > 0 && IsJsWhitespace(s[|s| - 1]) then 1 + TrailingWhitespace(s[..|s| - 1]) else 0
  }

  /**
   * String.prototype.trim: the slice of `s` left when the whitespace at both
   * ends is removed; it neither starts nor ends with whitespace.
   */
  function Trim(s: string): (r: string)
    ensures |r| <= |s|
    ensures exists i :: 0 <= i <= |s| - |r| && r <= s[i..]
                        && (forall k :: 0 <= k < i ==> IsJsWhitespace(s[k]))
                        && (forall k :: i + |r| <= k < |s| ==> IsJsWhitespace(s[k]))
    ensures r != [] ==> !IsJsWhitespace(r[0]) && !IsJsWhitespace(r[|r| - 1])
  {
    var start := LeadingWhitespace(s);
    var rest := s[start..];
    var r := rest[..|rest| - TrailingWhitespace(rest)];
    assert r <= s[start..];
    r
  }

  /** Trimming a trimmed string changes nothing. */
  lemma TrimIdempotent(s: string)
    ensures Trim(Trim(s)) == Trim(s)
  {
    var r := Trim(s);
    assert LeadingWhitespace(r) == 0;
    assert TrailingWhitespace(r[0..]) == 0;
    assert r[0..] == r;
  }

  /** A name made only of whitespace trims to the empty string. */
  lemma TrimBlank(s: string)
    requires forall i :: 0 <= i < |s| ==> IsJsWhitespace(s[i])
    ensures Trim(s) == []
  {
  }

  // ---------------------------------------------------------------------------
  // The entry schema

  /** Number.isInteger on a finite number. */
  predicate IsInteger(x: real)
  {
    x.Floor as real == x
  }

  /** The string checks min(1), max(20) and the name pattern, each reporting its own issue. */
  function NameIssues(name: string): (r: seq<Issue>)
    ensures forall x :: x in r ==> x.path == PlayerName && x.code != NotInteger
    ensures Issue(PlayerName, TooSmall) in r <==> |name| == 0
    ensures Issue(PlayerName, TooBig) in r <==> |name| > MaxNameLength
    ensures Issue(PlayerName, InvalidString) in r <==> !MatchesNamePattern(name)
    ensures r == [] <==> MatchesNamePattern(name) && |name| <= MaxNameLength
  {
    (if |name| < 1 then [Issue(PlayerName, TooSmall)] else [])
    + (if |name| > MaxNameLength then [Issue(PlayerName, TooBig)] else [])
    + (if MatchesNamePattern(name) then [] else [Issue(PlayerName, InvalidString)])
  }

  /** The number checks int(), min(lo) and max(hi), each reporting its own issue. */
  function NumberIssues(field: Field, x: real, lo: int, hi: int): (r: seq<Issue>)
    ensures forall y :: y in r ==> y.path == field && y.code != InvalidString
    ensures Issue(field, NotInteger) in r <==> !IsInteger(x)
    ensures Issue(field, TooSmall) in r <==> x < lo as real
    ensures Issue(field, TooBig) in r <==> x > hi as real
    ensures r == [] <==> IsInteger(x) && lo as real <= x <= hi as real
  {
    (if IsInteger(x) then [] else [Issue(field, NotInteger)])
    + (if x < lo as real then [Issue(field, TooSmall)] else [])
    + (if x > hi as real then [Issue(field, TooBig)] else [])
  }

  /** Every issue of an entry, field by field in the order of the schema. */
  function EntryIssues(input: EntryInput): (r: seq<Issue>)
    ensures forall c :: Issue(PlayerName, c) in r <==> Issue(PlayerName, c) in NameIssues(input.playerName)
    ensures forall c :: Issue(Score, c) in r <==> Issue(Score, c) in NumberIssues(Score, input.score, 0, MaxScore)
    ensures forall c :: Issue(Level, c) in r <==> Issue(Level, c) in NumberIssues(Level, input.level, MinLevel, MaxLevel)
    ensures r == [] <==>
      && NameIssues(input.playerName) == []
      && NumberIssues(Score, input.score, 0, MaxScore) == []
      && NumberIssues(Level, input.level, MinLevel, MaxLevel) == []
  {
    NameIssues(input.playerName)
    + NumberIssues(Score, input.score, 0, MaxScore)
    + NumberIssues(Level, input.level, MinLevel, MaxLevel)
  }

  /**
   * insertLeaderboardEntrySchema.parse: the entry with its name trimmed when
   * every check passes, otherwise the list of the checks that failed.
   */
  function ParseLeaderboardEntry(input: EntryInput): (r: Result<InsertLeaderboardEntry, seq<Issue>>)
    ensures r.Success? <==>
      && 1 <= |input.playerName| <= MaxNameLength
      && (forall i :: 0 <= i < |input.playerName| ==> IsNameChar(input.playerName[i]))
      && IsInteger(input.score) && 0.0 <= input.score <= MaxScore as real
      && IsInteger(input.level) && MinLevel as real <= input.level <= MaxLevel as real
    ensures r.Success? ==>
      && r.value.playerName == Trim(input.playerName)
      && |r.value.playerName| <= |input.playerName| <= MaxNameLength
      && r.value.score as real == input.score && 0 <= r.value.score <= MaxScore
      && r.value.level as real == input.level && MinLevel <= r.value.level <= MaxLevel
      && r.value.timeCompleted == input.timeCompleted
    ensures r.Failure? ==>
      && r.error != []
      && (Issue(PlayerName, TooSmall) in r.error <==> |input.playerName| == 0)
      && (Issue(PlayerName, TooBig) in r.error <==> |input.playerName| > MaxNameLength)
      && (Issue(PlayerName, InvalidString) in r.error <==> !MatchesNamePattern(input.playerName))
      && (Issue(Score, NotInteger) in r.error <==> !IsInteger(input.score))
      && (Issue(Score, TooSmall) in r.error <==> input.score < 0.0)
      && (Issue(Score, TooBig) in r.error <==> input.score > MaxScore as real)
      && (Issue(Level, NotInteger) in r.error <==> !IsInteger(input.level))
      && (Issue(Level, TooSmall) in r.error <==> input.level < MinLevel as real)
      && (Issue(Level, TooBig) in r.error <==> input.level > MaxLevel as real)
  {
    var issues := EntryIssues(input);
    if issues == [] then
      Success(InsertLeaderboardEntry(Trim(input.playerName), input.score.Floor, input.level.Floor, input.timeCompleted))
    else
      Failure(issues)
  }

  /**
   * A name of whitespace only passes every check and is stored empty, although
   * the first check's message says a name is required.
   */
  lemma BlankNameStoredEmpty(input: EntryInput)
    requires 1 <= |input.playerName| <= MaxNameLength
    requires forall i :: 0 <= i < |input.playerName| ==> IsJsWhitespace(input.playerName[i])
    requires IsInteger(input.score) && 0.0 <= input.score <= MaxScore as real
    requires IsInteger(input.level) && MinLevel as real <= input.level <= MaxLevel as real
    ensures ParseLeaderboardEntry(input).Success?
    ensures ParseLeaderboardEntry(input).value.playerName == []
  {
    TrimBlank(input.playerName);
  }
}
