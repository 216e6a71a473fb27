/** The mastery scheduler (src/hooks/use-spaced-repetition.ts): a progress
  * store keyed by attacker then defender, the Fisher-Yates shuffle, the
  * clamped level update and the quiz-question pipeline. `Math.random` is a
  * sequence of draws, `Date.now()` a parameter and the browser storage a
  * saved value plus a write-succeeded flag. */
module SpacedRepetition {
  import opened Wrappers
  import opened SeqUtil
  import opened PokemonData

  /** `MatchupProgress`: a level (0 unlearned .. 5 mastered) and the times of
    * the last correct and the last incorrect answer (`null` as None). */
  datatype Matchup = Matchup(level: int, lastCorrect: Option<int>, lastIncorrect: Option<int>)

  /** `AllProgress`: attacker, then defender, to the progress on that matchup. */
  type Progress = map<string, map<string, Matchup>>

  /** What the storage holds under the progress key when the hook mounts:
    * nothing (or the empty string), text that cannot be read back (the read
    * or `JSON.parse` throws), or a saved store. */
  datatype Stored = Missing | Unreadable | Saved(progress: Progress)

  /** The record a matchup starts from when none is stored. */
  const Unseen := Matchup(0, None, None)

  // ---------------------------------------------------------------------
  // Fisher-Yates shuffle
  // ---------------------------------------------------------------------

  /** Draws for shuffling `n` elements: `rs[i]` is the index
    * `Math.floor(Math.random() * (i + 1))` drawn when position `i` is
    * swapped, so it lies in [0, i]; `rs[0]` is never used. */
  predicate ValidDraws(rs: seq<nat>, n: nat) {
    |rs| == n && forall i | 0 <= i < n :: rs[i] <= i
  }

  /** The sequence with positions `i` and `j` exchanged. */
  function Swap<T>(s: seq<T>, i: nat, j: nat): (r: seq<T>)
    requires i < |s| && j < |s|
    ensures |r| == |s|
  {
    s[i := s[j]][j := s[i]]
  }

  /** Exchanging two positions keeps every element, each as often. */
  lemma SwapPermutes<T>(s: seq<T>, i: nat, j: nat)
    requires i < |s| && j < |s|
    ensures multiset(Swap(s, i, j)) == multiset(s)
  {
  }

  /** The swaps of positions `i`, `i - 1`, ..., 1, in that order; a draw
    * out of range stops the run (valid draws never are). */
  function ShuffleSteps<T>(s: seq<T>, rs: seq<nat>, i: int): seq<T>
    decreases i
  {
    if i <= 0 || |s| <= i || |rs| <= i || i < rs[i] then s
    else ShuffleSteps(Swap(s, i, rs[i]), rs, i - 1)
  }

  /** `shuffleArray`'s result for the draws `rs`. */
  function Shuffled<T>(s: seq<T>, rs: seq<nat>): seq<T>
    requires ValidDraws(rs, |s|)
  {
    ShuffleSteps(s, rs, |s| - 1)
  }

  /** Every run of swaps rearranges its input. */
  lemma {:induction false} ShuffleStepsPermutes<T>(s: seq<T>, rs: seq<nat>, i: int)
    ensures |ShuffleSteps(s, rs, i)| == |s|
    ensures multiset(ShuffleSteps(s, rs, i)) == multiset(s)
    decreases i
  {
    if !(i <= 0 || |s| <= i || |rs| <= i || i < rs[i]) {
      SwapPermutes(s, i, rs[i]);
      ShuffleStepsPermutes(Swap(s, i, rs[i]), rs, i - 1);
    }
  }

  /** The shuffle returns the same elements, each as often, in some order. */
  lemma ShuffledPermutes<T>(s: seq<T>, rs: seq<nat>)
    requires ValidDraws(rs, |s|)
    ensures |Shuffled(s, rs)| == |s|
    ensures multiset(Shuffled(s, rs)) == multiset(s)
  {
    ShuffleStepsPermutes(s, rs, |s| - 1);
  }

  /** `shuffleArray` (lines 21-28): a copy of the input, then a downward
    * loop that swaps each position `i > 0` with the drawn `j <= i`. The
    * input array is not modified. */
  method ShuffleArray<T>(a: array<T>, rs: seq<nat>) returns (b: array<T>)
    requires ValidDraws(rs, a.Length)
    ensures fresh(b)
    ensures b[..] == Shuffled(a[..], rs)
  {
    ghost var target := Shuffled(a[..], rs);
    b := ToArray(a[..]);
    var i := a.Length - 1;
    while i > 0
      invariant -1 <= i < b.Length
      invariant b.Length > 0 ==> i >= 0
      invariant ShuffleSteps(b[..], rs, i) == target
    {
      ghost var before := b[..];
      SwapAt(b, i, rs[i]);
      assert ShuffleSteps(before, rs, i) == ShuffleSteps(b[..], rs, i - 1);
      i := i - 1;
      assert ShuffleSteps(b[..], rs, i) == target;
    }
  }

  /** `[array[i], array[j]] = [array[j], array[i]]`. */
  method SwapAt<T>(b: array<T>, i: nat, j: nat)
    requires i < b.Length && j < b.Length
    modifies b
    ensures b[..] == Swap(old(b[..]), i, j)
  {
    var tmp := b[i];
    b[i] := b[j];
    b[j] := tmp;
  }

  /** A fresh array holding `s`: the arrays `flatMap` and the spread of a
    * `Set` build. */
  method ToArray<T>(s: seq<T>) returns (a: array<T>)
    ensures fresh(a) && a[..] == s
  {
    a := new T[|s|](k requires 0 <= k < |s| => s[k]);
  }

  // ---------------------------------------------------------------------
  // recordResult
  // ---------------------------------------------------------------------

  /** The stored record of a matchup, or the unseen record. */
  function Lookup(p: Progress, attacker: string, defender: string): Matchup {
    if attacker in p && defender in p[attacker] then p[attacker][defender] else Unseen
  }

  /** `typeProgress[type]?.level ?? 0`. */
  function LevelOf(p: Progress, attacker: string, defender: string): int {
    Lookup(p, attacker, defender).level
  }

  /** One answer applied to a record (lines 66-72). */
  function Updated(m: Matchup, isCorrect: bool, now: int): Matchup {
    if isCorrect then m.(level := if m.level + 1 < 5 then m.level + 1 else 5, lastCorrect := Some(now))
    else m.(level := if m.level - 1 > 0 then m.level - 1 else 0, lastIncorrect := Some(now))
  }

  /** The store `recordResult` hands to `saveProgress` (lines 55-74): the
    * attacker gains a row if it had none, the row gains the defender if it
    * had none, and that one record is updated. */
  function Recorded(p: Progress, attacker: string, defender: string, isCorrect: bool, now: int): (r: Progress)
    ensures r.Keys == p.Keys + {attacker}
    ensures r[attacker].Keys == (if attacker in p then p[attacker].Keys else {}) + {defender}
    ensures r[attacker][defender] == Updated(Lookup(p, attacker, defender), isCorrect, now)
  {
    var row := if attacker in p then p[attacker] else map[];
    p[attacker := row[defender := Updated(Lookup(p, attacker, defender), isCorrect, now)]]
  }

  /** A correct answer raises the level by one up to 5 and stamps
    * `lastCorrect`; an absent matchup starts from level 0. */
  lemma RecordedCorrect(p: Progress, attacker: string, defender: string, now: int)
    ensures var r := Recorded(p, attacker, defender, true, now);
      var m := Lookup(p, attacker, defender);
      && attacker in r && defender in r[attacker]
      && r[attacker][defender].level == (if m.level >= 5 then 5 else m.level + 1)
      && r[attacker][defender].lastCorrect == Some(now)
      && r[attacker][defender].lastIncorrect == m.lastIncorrect
    ensures !(attacker in p && defender in p[attacker]) ==>
      Recorded(p, attacker, defender, true, now)[attacker][defender] == Matchup(1, Some(now), None)
  {
  }

  /** An incorrect answer lowers the level by one down to 0 and stamps
    * `lastIncorrect`. */
  lemma RecordedIncorrect(p: Progress, attacker: string, defender: string, now: int)
    ensures var r := Recorded(p, attacker, defender, false, now);
      var m := Lookup(p, attacker, defender);
      && attacker in r && defender in r[attacker]
      && r[attacker][defender].level == (if m.level <= 0 then 0 else m.level - 1)
      && r[attacker][defender].lastIncorrect == Some(now)
      && r[attacker][defender].lastCorrect == m.lastCorrect
    ensures !(attacker in p && defender in p[attacker]) ==>
      Recorded(p, attacker, defender, false, now)[attacker][defender] == Matchup(0, None, Some(now))
  {
  }

  /** `recordResult` touches only the answered matchup: every other entry is
    * present exactly when it was, with the same record. */
  lemma RecordedFrame(p: Progress, attacker: string, defender: string, isCorrect: bool, now: int, a: string, d: string)
    requires a != attacker || d != defender
    ensures var r := Recorded(p, attacker, defender, isCorrect, now);
      && (a in r && d in r[a] <==> a in p && d in p[a])
      && Lookup(r, a, d) == Lookup(p, a, d)
    ensures var r := Recorded(p, attacker, defender, isCorrect, now);
      a != attacker ==> (a in r <==> a in p) && (a in p ==> r[a] == p[a])
  {
  }

  /** Every stored level lies in [0, 5]. */
  ghost predicate LevelsInRange(p: Progress) {
    forall a, d | a in p && d in p[a] :: 0 <= p[a][d].level <= 5
  }

  /** Answers keep every level in [0, 5]. */
  lemma RecordedInRange(p: Progress, attacker: string, defender: string, isCorrect: bool, now: int)
    requires LevelsInRange(p)
    ensures LevelsInRange(Recorded(p, attacker, defender, isCorrect, now))
  {
    var r: Progress := Recorded(p, attacker, defender, isCorrect, now);
    forall a: string, d: string | a in r && d in r[a] ensures 0 <= r[a][d].level <= 5 {
      if a != attacker || d != defender {
        RecordedFrame(p, attacker, defender, isCorrect, now, a, d);
      }
    }
  }

  /** `n` answers of the same kind to the same matchup, all at time `now`. */
  function RecordedTimes(p: Progress, attacker: string, defender: string, isCorrect: bool, now: int, n: nat): Progress {
    if n == 0 then p else Recorded(RecordedTimes(p, attacker, defender, isCorrect, now, n - 1), attacker, defender, isCorrect, now)
  }

  /** Correct answers saturate: from a level `l` in [0, 5], `n` of them give
    * min(5, l + n); from level 0, five or more give 5. */
  lemma {:induction false} CorrectStreak(p: Progress, attacker: string, defender: string, now: int, n: nat)
    requires 0 <= LevelOf(p, attacker, defender) <= 5
    ensures var l := LevelOf(p, attacker, defender);
      LevelOf(RecordedTimes(p, attacker, defender, true, now, n), attacker, defender)
        == if l + n < 5 then l + n else 5
  {
    if n > 0 {
      var q := RecordedTimes(p, attacker, defender, true, now, n - 1);
      CorrectStreak(p, attacker, defender, now, n - 1);
      RecordedCorrect(q, attacker, defender, now);
      assert RecordedTimes(p, attacker, defender, true, now, n) == Recorded(q, attacker, defender, true, now);
    }
  }

  /** Incorrect answers floor at 0: `n` of them from a level `l >= 0` give max(0, l - n). */
  lemma {:induction false} IncorrectStreak(p: Progress, attacker: string, defender: string, now: int, n: nat)
    requires 0 <= LevelOf(p, attacker, defender)
    ensures var l := LevelOf(p, attacker, defender);
      LevelOf(RecordedTimes(p, attacker, defender, false, now, n), attacker, defender)
        == if l - n > 0 then l - n else 0
  {
    if n > 0 {
      var q := RecordedTimes(p, attacker, defender, false, now, n - 1);
      IncorrectStreak(p, attacker, defender, now, n - 1);
      RecordedIncorrect(q, attacker, defender, now);
      assert RecordedTimes(p, attacker, defender, false, now, n) == Recorded(q, attacker, defender, false, now);
    }
  }

  // ---------------------------------------------------------------------
  // getQuizQuestions
  // ---------------------------------------------------------------------

  /** `6 - level`: how often a defender is put into the pool. */
  function Weight(p: Progress, attacker: string, defender: string): int {
    6 - LevelOf(p, attacker, defender)
  }

  /** `Array(n).fill(x)` for `n >= 0`. */
  function Repeat(x: string, n: nat): (r: seq<string>)
    ensures |r| == n
    ensures forall y | y in r :: y == x
  {
    if n == 0 then [] else [x] + Repeat(x, n - 1)
  }

  /** `Array(weight)` throws a RangeError for a negative weight, that is for a
    * stored level above 6; otherwise every weight is a valid length. */
  predicate WeightsDefined(p: Progress, attacker: string) {
    forall t | t in TypeNames && t != attacker :: Weight(p, attacker, t) >= 0
  }

  /** The `flatMap` of lines 86-91 over `ts`: each defender repeated by its weight. */
  function Pool(p: Progress, attacker: string, ts: seq<string>): seq<string>
    requires forall t | t in ts :: Weight(p, attacker, t) >= 0
  {
    if ts == [] then [] else Repeat(ts[0], Weight(p, attacker, ts[0])) + Pool(p, attacker, ts[1..])
  }

  /** The weighted pool of `getQuizQuestions`. */
  function WeightedPool(p: Progress, attacker: string): seq<string>
    requires WeightsDefined(p, attacker)
  {
    Pool(p, attacker, OtherTypes(attacker))
  }

  /** The candidates whose level is below 5 (line 97). */
  function Unmastered(p: Progress, attacker: string): seq<string> {
    Filter(OtherTypes(attacker), t => LevelOf(p, attacker, t) < 5)
  }

  /** `questionsWithUnmastered` (lines 93-98): the shuffled pool without
    * repeats, then the unmastered candidates not yet listed. */
  function Union(p: Progress, attacker: string, rs1: seq<nat>): seq<string>
    requires WeightsDefined(p, attacker)
    requires ValidDraws(rs1, |WeightedPool(p, attacker)|)
  {
    Dedup(Dedup(Shuffled(WeightedPool(p, attacker), rs1)) + Unmastered(p, attacker))
  }

  /** The draws `getQuizQuestions` needs: one per pool element, then one per
    * element of the union. */
  predicate QuizDraws(p: Progress, attacker: string, rs1: seq<nat>, rs2: seq<nat>) {
    WeightsDefined(p, attacker) ==>
      && ValidDraws(rs1, |WeightedPool(p, attacker)|)
      && ValidDraws(rs2, |Union(p, attacker, rs1)|)
  }

  /** `getQuizQuestions`: None when building the pool throws, else the first
    * ten of the reshuffled union. `Array(6 - level)` throws exactly when
    * some candidate's stored level is above 6. */
  function QuizQuestions(p: Progress, attacker: string, rs1: seq<nat>, rs2: seq<nat>): (r: Option<seq<string>>)
    requires QuizDraws(p, attacker, rs1, rs2)
    ensures r.None? <==> exists t | t in TypeNames && t != attacker :: LevelOf(p, attacker, t) > 6
  {
    if !WeightsDefined(p, attacker) then None
    else Some(Take(Shuffled(Union(p, attacker, rs1), rs2), 10))
  }

  /** With distinct `ts`, a defender occurs in the pool exactly as often as
    * its weight says, and nothing else occurs. */
  lemma {:induction false} PoolCount(p: Progress, attacker: string, ts: seq<string>, t: string)
    requires Distinct(ts)
    requires forall u | u in ts :: Weight(p, attacker, u) >= 0
    ensures multiset(Pool(p, attacker, ts))[t] == if t in ts then Weight(p, attacker, t) else 0
  {
    if ts != [] {
      var head := Repeat(ts[0], Weight(p, attacker, ts[0]));
      assert Distinct(ts[1..]);
      PoolCount(p, attacker, ts[1..], t);
      assert multiset(head)[t] == if t == ts[0] then |head| else 0 by {
        RepeatCount(ts[0], Weight(p, attacker, ts[0]), t);
      }
      assert t == ts[0] ==> t !in ts[1..];
    }
  }

  lemma {:induction false} RepeatCount(x: string, n: nat, t: string)
    ensures multiset(Repeat(x, n))[t] == if t == x then n else 0
  {
    if n > 0 {
      RepeatCount(x, n - 1, t);
    }
  }

  /** Each candidate occurs in the weighted pool exactly `6 - level` times. */
  lemma PoolWeights(p: Progress, attacker: string, t: string)
    requires WeightsDefined(p, attacker)
    ensures t in TypeNames && t != attacker ==> multiset(WeightedPool(p, attacker))[t] == 6 - LevelOf(p, attacker, t)
    ensures !(t in TypeNames && t != attacker) ==> t !in WeightedPool(p, attacker)
  {
    PoolCount(p, attacker, OtherTypes(attacker), t);
  }

  /** The shuffled pool holds the candidates of weight at least 1. */
  lemma ShuffledPoolMembers(p: Progress, attacker: string, rs1: seq<nat>, t: string)
    requires WeightsDefined(p, attacker)
    requires ValidDraws(rs1, |WeightedPool(p, attacker)|)
    ensures t in Shuffled(WeightedPool(p, attacker), rs1) <==> t in TypeNames && t != attacker && LevelOf(p, attacker, t) <= 5
  {
    var pool := WeightedPool(p, attacker);
    PoolWeights(p, attacker, t);
    ShuffledPermutes(pool, rs1);
    assert t in Shuffled(pool, rs1) <==> t in multiset(pool);
  }

  /** The union holds exactly the candidates whose level is at most 5: the
    * pool brings those of weight at least 1, the unmastered list those below 5. */
  lemma UnionMembers(p: Progress, attacker: string, rs1: seq<nat>, t: string)
    requires WeightsDefined(p, attacker)
    requires ValidDraws(rs1, |WeightedPool(p, attacker)|)
    ensures t in Union(p, attacker, rs1) <==> t in TypeNames && t != attacker && LevelOf(p, attacker, t) <= 5
  {
    ShuffledPoolMembers(p, attacker, rs1, t);
    UnmasteredMembers(p, attacker, t);
    DedupConcat(Shuffled(WeightedPool(p, attacker), rs1), Unmastered(p, attacker), t);
  }

  /** The unmastered list holds the candidates below level 5. */
  lemma UnmasteredMembers(p: Progress, attacker: string, t: string)
    ensures t in Unmastered(p, attacker) <==> t in TypeNames && t != attacker && LevelOf(p, attacker, t) < 5
  {
  }

  /** The first ten of a reshuffled list without repeats are distinct
    * members of it, ten of them when it has at least ten. */
  lemma ReshuffledPrefix<T>(u: seq<T>, rs: seq<nat>)
    requires ValidDraws(rs, |u|) && Distinct(u)
    ensures var qs := Take(Shuffled(u, rs), 10);
      && |qs| == (if |u| < 10 then |u| else 10)
      && Distinct(qs)
      && forall t | t in qs :: t in multiset(u)
  {
    var sh := Shuffled(u, rs);
    ShuffledPermutes(u, rs);
    PermutationDistinct(u, sh);
    var qs := Take(sh, 10);
    assert qs == sh[..|qs|];
    forall t | t in qs ensures t in multiset(u) {
      assert t in multiset(sh);
    }
  }

  /** When every weight is defined the result is the first ten of the
    * reshuffled union. */
  lemma QuizQuestionsValue(p: Progress, attacker: string, rs1: seq<nat>, rs2: seq<nat>)
    requires QuizDraws(p, attacker, rs1, rs2)
    ensures QuizQuestions(p, attacker, rs1, rs2).Some? <==> WeightsDefined(p, attacker)
    ensures WeightsDefined(p, attacker) ==>
      QuizQuestions(p, attacker, rs1, rs2).value == Take(Shuffled(Union(p, attacker, rs1), rs2), 10)
  {
  }

  /** `getQuizQuestions` returns at most ten distinct defenders, none of
    * them the attacker, all from the roster; it fails only when a weight
    * is negative. */
  lemma QuizQuestionsSound(p: Progress, attacker: string, rs1: seq<nat>, rs2: seq<nat>)
    requires QuizDraws(p, attacker, rs1, rs2)
    ensures QuizQuestions(p, attacker, rs1, rs2).Some? <==> WeightsDefined(p, attacker)
    ensures QuizQuestions(p, attacker, rs1, rs2).Some? ==>
      var qs := QuizQuestions(p, attacker, rs1, rs2).value;
      && |qs| <= 10
      && Distinct(qs)
      && forall t | t in qs :: t in TypeNames && t != attacker
  {
    QuizQuestionsValue(p, attacker, rs1, rs2);
    if WeightsDefined(p, attacker) {
      var u := Union(p, attacker, rs1);
      ReshuffledPrefix(u, rs2);
      forall t | t in u ensures t in TypeNames && t != attacker {
        UnionMembers(p, attacker, rs1, t);
      }
    }
  }

  /** Every level of the attacker's row lies in [0, 5]. */
  predicate LevelsBounded(p: Progress, attacker: string) {
    forall t | t in TypeNames && t != attacker :: 0 <= LevelOf(p, attacker, t) <= 5
  }

  /** A store whose levels all lie in [0, 5] bounds every attacker's row. */
  lemma InRangeBounded(p: Progress, attacker: string)
    requires LevelsInRange(p)
    ensures LevelsBounded(p, attacker)
  {
  }

  /** Bounded levels give every candidate a weight of at least 1. */
  lemma BoundedWeights(p: Progress, attacker: string)
    requires LevelsBounded(p, attacker)
    ensures WeightsDefined(p, attacker)
  {
  }

  /** With every level at most 5 the union holds each candidate once. */
  lemma UnionIsCandidates(p: Progress, attacker: string, rs1: seq<nat>, t: string)
    requires LevelsBounded(p, attacker)
    requires WeightsDefined(p, attacker) && ValidDraws(rs1, |WeightedPool(p, attacker)|)
    ensures t in Union(p, attacker, rs1) <==> t in OtherTypes(attacker)
  {
    UnionMembers(p, attacker, rs1, t);
  }

  /** ... so every candidate is in it ... */
  lemma CandidatesInUnion(p: Progress, attacker: string, rs1: seq<nat>)
    requires LevelsBounded(p, attacker)
    requires WeightsDefined(p, attacker) && ValidDraws(rs1, |WeightedPool(p, attacker)|)
    ensures forall t | t in OtherTypes(attacker) :: t in Union(p, attacker, rs1)
  {
    forall t | t in OtherTypes(attacker) ensures t in Union(p, attacker, rs1) {
      UnionIsCandidates(p, attacker, rs1, t);
    }
  }

  /** ... and so it is at least 17 long. */
  lemma UnionLength(p: Progress, attacker: string, rs1: seq<nat>)
    requires LevelsBounded(p, attacker)
    requires WeightsDefined(p, attacker) && ValidDraws(rs1, |WeightedPool(p, attacker)|)
    ensures |Union(p, attacker, rs1)| >= 17
  {
    var u := Union(p, attacker, rs1);
    CandidatesInUnion(p, attacker, rs1);
    OtherTypesCount(attacker);
    CountAtLeast(OtherTypes(attacker), u, 17);
  }

  /** With every level in [0, 5] the union is exactly the candidates, and
    * the quiz has exactly ten questions. */
  lemma QuizQuestionsFull(p: Progress, attacker: string, rs1: seq<nat>, rs2: seq<nat>)
    requires QuizDraws(p, attacker, rs1, rs2)
    requires LevelsBounded(p, attacker)
    ensures WeightsDefined(p, attacker)
    ensures forall t | t in OtherTypes(attacker) :: t in Union(p, attacker, rs1)
    ensures QuizQuestions(p, attacker, rs1, rs2).Some?
    ensures |QuizQuestions(p, attacker, rs1, rs2).value| == 10
  {
    BoundedWeights(p, attacker);
    CandidatesInUnion(p, attacker, rs1);
    UnionLength(p, attacker, rs1);
    QuizQuestionsValue(p, attacker, rs1, rs2);
    ReshuffledPrefix(Union(p, attacker, rs1), rs2);
  }

  /** The progress store of the hook. */
  class ProgressStore {
    var progress: Progress

    /** Mount: start empty, then adopt the saved store if one can be read
      * (lines 33-41); a failed read is swallowed and leaves the store empty. */
    constructor (saved: Stored)
      ensures progress == if saved.Saved? then saved.progress else map[]
    {
      progress := map[];
      if saved.Saved? {
        progress := saved.progress;
      }
    }

    /** `saveProgress` (lines 44-51): write, then adopt the new store; when
      * the write throws the error is swallowed and the store is kept. */
    method SaveProgress(newProgress: Progress, writeOk: bool)
      modifies this
      ensures progress == if writeOk then newProgress else old(progress)
    {
      if writeOk {
        progress := newProgress;
      }
    }

    /** `recordResult` (lines 53-77): copy the store, make sure the attacker
      * has a row, update the record of the matchup and save the copy. */
    method RecordResult(attacker: string, defender: string, isCorrect: bool, now: int, writeOk: bool)
      modifies this
      ensures progress == if writeOk then Recorded(old(progress), attacker, defender, isCorrect, now) else old(progress)
      ensures LevelsInRange(old(progress)) ==> LevelsInRange(progress)
    {
      var newProgress := progress;
      if attacker !in newProgress {
        newProgress := newProgress[attacker := map[]];
      }
      var current := if defender in newProgress[attacker] then newProgress[attacker][defender] else Unseen;
      if isCorrect {
        current := current.(level := if 5 < current.level + 1 then 5 else current.level + 1, lastCorrect := Some(now));
      } else {
        current := current.(level := if 0 > current.level - 1 then 0 else current.level - 1, lastIncorrect := Some(now));
      }
      newProgress := newProgress[attacker := newProgress[attacker][defender := current]];
      if LevelsInRange(progress) {
        RecordedInRange(progress, attacker, defender, isCorrect, now);
      }
      SaveProgress(newProgress, writeOk);
    }

    /** `getQuizQuestions` (lines 80-103): reads the store, builds and
      * shuffles the weighted pool, adds the unmastered candidates, shuffles
      * again and keeps ten. None stands for the RangeError of a negative weight. */
    method GetQuizQuestions(attacker: string, rs1: seq<nat>, rs2: seq<nat>) returns (qs: Option<seq<string>>)
      requires QuizDraws(progress, attacker, rs1, rs2)
      ensures qs == QuizQuestions(progress, attacker, rs1, rs2)
      ensures qs.Some? ==> |qs.value| <= 10 && Distinct(qs.value)
      ensures qs.Some? ==> forall t | t in qs.value :: t in TypeNames && t != attacker
    {
      QuizQuestionsSound(progress, attacker, rs1, rs2);
      QuizQuestionsValue(progress, attacker, rs1, rs2);
      if !WeightsDefined(progress, attacker) {
        return None;
      }
      var pool := WeightedPool(progress, attacker);
      var poolArray := ToArray(pool);
      var shuffled := ShuffleArray(poolArray, rs1);
      var unique := Dedup(shuffled[..]);
      var union := Dedup(unique + Unmastered(progress, attacker));
      assert union == Union(progress, attacker, rs1);
      var unionArray := ToArray(union);
      var reshuffled := ShuffleArray(unionArray, rs2);
      qs := Some(Take(reshuffled[..], 10));
    }
  }
}
