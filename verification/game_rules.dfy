/**
 * The pure rules of the memory game: colours, modes and phases, the size of
 * a pattern and of the time budget, the scoring formulas, the unlock rule and
 * the secret codes that let a player jump to a level.
 */
module GameRules {
  import opened Common

  datatype Color = Green | Red
  datatype GameMode = Levels | Challenge
  datatype GamePhase = Idle | Showing | Waiting | Playing | Complete | Failed

  /** Pattern length at the start of a challenge run. */
  const ChallengeStartLength: nat := 3
  /** Longest pattern levels mode ever asks for. */
  const MaxPatternLength: nat := 10
  /** Points for each colour a challenge run grows by. */
  const ChallengeStepScore: int := 10
  /** Bonus shown on every level completion. */
  const AccuracyBonus: int := 100
  /** Characters a secret code is drawn from. */
  const CodeAlphabet: string := "ABCDEFGHIJKLMNOPQRSTUVWXYZ0123456789"

  /** A code the generator can produce: four characters of the code alphabet. */
  predicate IsSecretCode(s: string)
  {
    |s| == 4 && forall i :: 0 <= i < |s| ==> s[i] in CodeAlphabet
  }

  function Max(a: int, b: int): int
  {
    if a >= b then a else b
  }

  // ---------------------------------------------------------------------------
  // Pattern length and time budget of a level

  /** Levels mode asks for 3 + level colours, never more than ten. */
  function PatternLength(level: int): (n: nat)
    requires level >= 1
    ensures 4 <= n <= MaxPatternLength
    ensures level <= 7 ==> n == 3 + level
    ensures level >= 7 ==> n == MaxPatternLength
  {
    if 3 + level < 10 then 3 + level else 10
  }

  /** Seconds a level allows: thirty plus five per level. */
  function TimeBudget(level: int): (t: int)
    requires level >= 1
    ensures t >= 35
    ensures t % 5 == 0
  {
    30 + level * 5
  }

  /** A level's budget grows with the level. */
  lemma TimeBudgetGrows(a: int, b: int)
    requires 1 <= a <= b
    ensures TimeBudget(a) <= TimeBudget(b)
    ensures TimeBudget(b) - TimeBudget(a) == 5 * (b - a)
  {
  }

  // ---------------------------------------------------------------------------
  // Scoring

  /** Math.round: the nearest integer, a half rounded towards +infinity. */
  function JsRound(x: real): (r: int)
    ensures r as real - 0.5 <= x < r as real + 0.5
  {
    (x + 0.5).Floor
  }

  function RealMax(a: real, b: real): real
  {
    if a >= b then a else b
  }

  /** Flooring an exact quotient of integers is integer division. */
  lemma FloorOfQuotient(a: int, b: int)
    requires b > 0
    ensures (a as real / b as real).Floor == a / b
  {
    var q, r := a / b, a % b;
    assert a == q * b + r && 0 <= r < b;
    assert a as real == q as real * b as real + r as real;
    assert a as real / b as real == q as real + r as real / b as real;
    assert 0.0 <= r as real / b as real < 1.0;
  }

  /** The time multiplier max(0.5, t / 30) is max(15, t) / 30. */
  lemma TimeMultiplier(t: int)
    ensures RealMax(0.5, t as real / 30.0) == Max(15, t) as real / 30.0
  {
  }

  /**
   * Points for reproducing a pattern of `patternLength` colours with `seconds`
   * left at level `level`: round(length * 10 * max(0.5, seconds / 30) * level),
   * computed exactly rather than in floating point.
   */
  function EarnedScore(patternLength: nat, seconds: int, level: int): (r: int)
    requires seconds >= 0 && level >= 1
    ensures r >= 0
    ensures r == (2 * (patternLength * level * Max(15, seconds)) + 3) / 6
  {
    var baseScore := patternLength * 10;
    var timeMultiplier := RealMax(0.5, seconds as real / 30.0);
    var x := baseScore as real * timeMultiplier * level as real;
    EarnedScoreExact(patternLength, seconds, level);
    JsRound(x)
  }

  /** The exact-rational score is (2N + 3) / 6 with N = length * level * max(15, t). */
  lemma EarnedScoreExact(patternLength: nat, seconds: int, level: int)
    requires seconds >= 0 && level >= 1
    ensures JsRound((patternLength * 10) as real * RealMax(0.5, seconds as real / 30.0) * level as real)
         == (2 * (patternLength * level * Max(15, seconds)) + 3) / 6
  {
    var m := Max(15, seconds);
    var n := patternLength * level * m;
    TimeMultiplier(seconds);
    var x := (patternLength * 10) as real * RealMax(0.5, seconds as real / 30.0) * level as real;
    assert x == (patternLength * 10) as real * (m as real / 30.0) * level as real;
    assert (patternLength * 10) as real == 10.0 * patternLength as real;
    assert n as real == patternLength as real * level as real * m as real;
    assert x == n as real / 3.0;
    assert x + 0.5 == (2 * n + 3) as real / 6.0;
    FloorOfQuotient(2 * n + 3, 6);
  }

  /** With 15 seconds or fewer left, the multiplier floors at 0.5: 5 points per colour and level. */
  lemma EarnedScoreAtFloor(patternLength: nat, seconds: int, level: int)
    requires 0 <= seconds <= 15 && level >= 1
    ensures EarnedScore(patternLength, seconds, level) == 5 * patternLength * level
  {
    var a := patternLength * level;
    assert patternLength * level * Max(15, seconds) == 15 * a;
    assert 2 * (15 * a) + 3 == 6 * (5 * a) + 3;
  }

  /** More time left never earns fewer points. */
  lemma EarnedScoreMonotone(patternLength: nat, s1: int, s2: int, level: int)
    requires 0 <= s1 <= s2 && level >= 1
    ensures EarnedScore(patternLength, s1, level) <= EarnedScore(patternLength, s2, level)
  {
    var a := patternLength * level;
    assert a >= 0;
    assert Max(15, s1) <= Max(15, s2);
    assert a * Max(15, s1) <= a * Max(15, s2);
    assert patternLength * level * Max(15, s1) == a * Max(15, s1);
    assert patternLength * level * Max(15, s2) == a * Max(15, s2);
  }

  /** Math.round(seconds * 5): the bonus for the seconds left. */
  function TimeBonus(seconds: int): (r: int)
    ensures r == 5 * seconds
  {
    JsRound(seconds as real * 5.0)
  }

  /** Completing `level` unlocks the next one unless a later one is already open. */
  function UnlockAfter(level: int, unlocked: int): (r: int)
    ensures r == Max(unlocked, level + 1)
    ensures r >= unlocked && r > level
  {
    if level >= unlocked then level + 1 else unlocked
  }

  // ---------------------------------------------------------------------------
  // Comparing a click with the pattern

  /**
   * A click is right when the pattern has a colour at the position the click
   * fills and that colour is the clicked one; past the end of the pattern the
   * lookup is undefined, which never equals a colour.
   */
  predicate ClickMatches(pattern: seq<Color>, input: seq<Color>, c: Color)
  {
    |input| < |pattern| && pattern[|input|] == c
  }

  /** Appending matching clicks to a prefix of the pattern stays a prefix. */
  lemma MatchingClickExtendsPrefix(pattern: seq<Color>, input: seq<Color>, c: Color)
    requires input <= pattern && ClickMatches(pattern, input, c)
    ensures input + [c] <= pattern
    ensures |input + [c]| == |pattern| ==> input + [c] == pattern
  {
    assert pattern[..|input| + 1] == pattern[..|input|] + [pattern[|input|]];
  }

  // ---------------------------------------------------------------------------
  // Secret codes

  /** String.prototype.toUpperCase on the ASCII letters. */
  function UpperChar(c: char): char
  {
    if 'a' <= c <= 'z' then (c as int - 32) as char else c
  }

  /** Each lower-case letter becomes its own capital; every other character is kept. */
  function ToUpper(s: string): (r: string)
    ensures |r| == |s|
    ensures forall i :: 0 <= i < |r| ==> !('a' <= r[i] <= 'z')
    ensures forall i :: 0 <= i < |s| && 'a' <= s[i] <= 'z' ==>
              'A' <= r[i] <= 'Z' && r[i] as int - 'A' as int == s[i] as int - 'a' as int
    ensures forall i :: 0 <= i < |s| && !('a' <= s[i] <= 'z') ==> r[i] == s[i]
  {
    seq(|s|, i requires 0 <= i < |s| => UpperChar(s[i]))
  }

  /** `s` spells `code` with any of its letters typed in lower case. */
  predicate SameUpToCase(s: string, code: string)
  {
    && |s| == |code|
    && forall i :: 0 <= i < |s| ==>
         s[i] == code[i] || ('a' <= s[i] <= 'z' && s[i] as int - 'a' as int == code[i] as int - 'A' as int)
  }

  /** Upper-casing twice is upper-casing once. */
  lemma ToUpperIdempotent(s: string)
    ensures ToUpper(ToUpper(s)) == ToUpper(s)
  {
  }

  /** A generated code is already upper case, so typing it exactly always matches. */
  lemma ToUpperKeepsCodes(code: string)
    requires IsSecretCode(code)
    ensures ToUpper(code) == code
  {
    forall i | 0 <= i < |code|
      ensures ToUpper(code)[i] == code[i]
    {
      assert code[i] in CodeAlphabet;
    }
  }

  /** A generated code typed in any mix of cases upper-cases to the code itself. */
  lemma AnyCaseMatchesCode(s: string, code: string)
    requires IsSecretCode(code) && SameUpToCase(s, code)
    ensures ToUpper(s) == code
  {
    forall i | 0 <= i < |s|
      ensures ToUpper(s)[i] == code[i]
    {
      assert code[i] in CodeAlphabet;
    }
  }

  /** Input of another length than four never matches a generated code (ASCII upper-casing). */
  lemma WrongLengthNeverMatches(input: string, code: string)
    requires IsSecretCode(code) && |input| != 4
    ensures ToUpper(input) != code
  {
  }

  /** `k` is the first level, in ascending order, whose stored code is `code`. */
  ghost predicate IsLeastCodeKey(codes: map<int, string>, code: string, k: int)
  {
    && k in codes
    && codes[k] == code
    && forall j :: j in codes && codes[j] == code ==> k <= j
  }

  /** `k` is the least element of `s`. */
  predicate IsLeast(s: set<int>, k: int)
  {
    k in s && forall j :: j in s ==> k <= j
  }

  /** Every non-empty finite set of integers has a least element. */
  lemma {:induction false} LeastExists(s: set<int>)
    requires s != {}
    ensures exists k :: IsLeast(s, k)
  {
    if forall y :: y !in s {
      assert false;
    }
    var x :| x in s;
    if s == {x} {
      assert IsLeast(s, x);
    } else {
      var rest := s - {x};
      LeastExists(rest);
      var k :| IsLeast(rest, k);
      var least := if x < k then x else k;
      forall j | j in s
        ensures least <= j
      {
        if j != x {
          assert j in rest;
        }
      }
      assert IsLeast(s, least);
    }
  }

  /**
   * Object.entries(levelCodes).find(...): integer keys are visited in
   * ascending order and the first one whose code equals `code` is returned.
   */
  method LookupLevelCode(codes: map<int, string>, code: string) returns (found: Option<int>)
    ensures found.None? <==> forall k :: k in codes ==> codes[k] != code
    ensures found.Some? ==> IsLeastCodeKey(codes, code, found.value)
  {
    found := None;
    var rest := codes.Keys;
    while rest != {} && found.None?
      invariant rest <= codes.Keys
      invariant forall k, j :: k in codes && k !in rest && j in rest ==> k < j
      invariant found.None? ==> forall k :: k in codes && k !in rest ==> codes[k] != code
      invariant found.Some? ==> IsLeastCodeKey(codes, code, found.value)
      decreases rest
    {
      LeastExists(rest);
      var k :| IsLeast(rest, k);
      if codes[k] == code {
        found := Some(k);
      }
      rest := rest - {k};
    }
  }
}
