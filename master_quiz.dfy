/** The dual-type master quiz (src/components/master-quiz.tsx): the answer
  * options, the rejection-sampling question generator and the session
  * state. `Math.random` and the shuffle of `@/lib/utils` are replaced by a
  * finite sequence of draws; each draw names the attacker and the shuffled
  * defenders of one pass through the generator's loop. */
module MasterQuiz {
  import opened Wrappers
  import opened SeqUtil
  import opened PokemonData

  // ---------------------------------------------------------------------
  // Answer options
  // ---------------------------------------------------------------------

  /** An entry of `EFFECTIVENESS_OPTIONS`. */
  datatype AnswerOption = AnswerOption(caption: string, multiplier: real)

  /** `EFFECTIVENESS_OPTIONS` (lines 15-22). */
  const EffectivenessOptions: seq<AnswerOption> := [
    AnswerOption("4x Super Effective", 4.0),
    AnswerOption("2x Super Effective", 2.0),
    AnswerOption("Normal Damage", 1.0),
    AnswerOption("0.5x Not Very Effective", 0.5),
    AnswerOption("0.25x Not Very Effective", 0.25),
    AnswerOption("No Effect", 0.0)
  ]

  /** Is not the 1x option. */
  predicate NotNeutral(o: AnswerOption) {
    o.multiplier != 1.0
  }

  /** The radio buttons: `EFFECTIVENESS_OPTIONS.filter(o => o.multiplier !== 1)` (line 172). */
  function OfferedOptions(): seq<AnswerOption> {
    Filter(EffectivenessOptions, NotNeutral)
  }

  /** How many entries from position `k` on pass the filter. */
  lemma {:induction false} OfferedSuffixCount(k: nat)
    requires k <= 6
    ensures |Filter(EffectivenessOptions[k..], NotNeutral)| == if k <= 2 then 5 - k else 6 - k
    decreases 6 - k
  {
    var os := EffectivenessOptions;
    if k < 6 {
      OfferedSuffixCount(k + 1);
      assert os[k..][1..] == os[k + 1..];
    }
  }

  /** Five radio buttons are shown. */
  lemma OfferedCount()
    ensures |OfferedOptions()| == 5
  {
    OfferedSuffixCount(0);
    assert EffectivenessOptions[0..] == EffectivenessOptions;
  }

  /** Each option's caption is the label `getCombinedEffectiveness` gives
    * its multiplier. */
  lemma CaptionsAreLabels()
    ensures forall o | o in EffectivenessOptions :: CombinedLabelOf(o.multiplier) == Named(o.caption)
  {
  }

  /** The offered options are the five entries of the table other than the
    * 1x one, in table order, and each one's caption is the label
    * `getCombinedEffectiveness` gives its multiplier. */
  lemma OfferedOptionsShape()
    ensures |OfferedOptions()| == 5
    ensures IsSubsequence(OfferedOptions(), EffectivenessOptions)
    ensures forall o | o in EffectivenessOptions :: o in OfferedOptions() <==> o.multiplier != 1.0
    ensures forall o | o in EffectivenessOptions :: CombinedLabelOf(o.multiplier) == Named(o.caption)
  {
    OfferedCount();
    CaptionsAreLabels();
    FilterInOrder(EffectivenessOptions, NotNeutral);
  }

  // ---------------------------------------------------------------------
  // Questions and their keys
  // ---------------------------------------------------------------------

  /** `MasterQuizQuestion`: an attacker and an ordered pair of defenders. */
  datatype Question = Question(attacker: string, first: string, second: string)

  /** `defendingTypes` as the list handed to `getCombinedEffectiveness`. */
  function Defenders(q: Question): seq<string> {
    [q.first, q.second]
  }

  /** The default order of `Array.prototype.sort` on strings: code unit by
    * code unit, a proper prefix first. */
  predicate StrLess(a: string, b: string) {
    if b == [] then false
    else if a == [] then true
    else if a[0] != b[0] then a[0] < b[0]
    else StrLess(a[1..], b[1..])
  }

  /** No string is before itself. */
  lemma {:induction false} StrLessIrreflexive(a: string)
    ensures !StrLess(a, a)
  {
    if a != [] {
      StrLessIrreflexive(a[1..]);
    }
  }

  /** Of two different strings exactly one is before the other. */
  lemma {:induction false} StrLessTotal(a: string, b: string)
    ensures a != b <==> StrLess(a, b) || StrLess(b, a)
    ensures !(StrLess(a, b) && StrLess(b, a))
  {
    if a == [] || b == [] {
    } else if a[0] != b[0] {
    } else {
      StrLessTotal(a[1..], b[1..]);
      assert a == [a[0]] + a[1..] && b == [b[0]] + b[1..];
    }
    if a == b {
      StrLessIrreflexive(a);
    }
  }

  /** `questionKey` (lines 45-46): the attacker and the two defenders in
    * sorted order. */
  datatype QuestionKey = QuestionKey(attacker: string, low: string, high: string)

  /** `[...defendingTypes].sort()` for a pair, then the key: the attacker
    * and the same two defenders, the lower one first. */
  function KeyOf(q: Question): (k: QuestionKey)
    ensures k.attacker == q.attacker
    ensures multiset{k.low, k.high} == multiset{q.first, q.second}
    ensures !StrLess(k.high, k.low)
  {
    StrLessTotal(q.first, q.second);
    if StrLess(q.second, q.first) then QuestionKey(q.attacker, q.second, q.first)
    else QuestionKey(q.attacker, q.first, q.second)
  }

  /** Two questions share a key exactly when they have the same attacker and
    * the same two defenders, in either order. */
  lemma KeyEqual(q: Question, r: Question)
    ensures KeyOf(q) == KeyOf(r) <==>
      q.attacker == r.attacker
      && ((q.first == r.first && q.second == r.second) || (q.first == r.second && q.second == r.first))
  {
    StrLessTotal(q.first, q.second);
    StrLessTotal(r.first, r.second);
    StrLessTotal(q.first, r.first);
    StrLessTotal(q.second, r.second);
  }

  /** No two questions of the list share a key. */
  predicate KeysDistinct(qs: seq<Question>) {
    forall i, j | 0 <= i < j < |qs| :: KeyOf(qs[i]) != KeyOf(qs[j])
  }

  /** The keys of a list of questions. */
  function Keys(qs: seq<Question>): set<QuestionKey> {
    set q | q in qs :: KeyOf(q)
  }

  /** Appending a question adds its key. */
  lemma KeysAppend(qs: seq<Question>, q: Question)
    ensures Keys(qs + [q]) == Keys(qs) + {KeyOf(q)}
  {
    assert forall x | x in qs + [q] :: x in qs || x == q;
  }

  // ---------------------------------------------------------------------
  // generateMasterQuizQuestions
  // ---------------------------------------------------------------------

  /** One pass of the generator's loop: the drawn attacker index
    * (`Math.floor(Math.random() * allTypes.length)`) and the defenders as
    * the shuffle returned them. */
  datatype Draw = Draw(attackerIndex: nat, shuffled: seq<string>)

  /** A draw the source can produce: an index into the roster and a
    * rearrangement of the roster without that attacker. */
  predicate ValidDraw(d: Draw) {
    d.attackerIndex < |TypeNames|
    && multiset(d.shuffled) == multiset(OtherTypes(TypeNames[d.attackerIndex]))
  }

  /** A question the generator may keep: roster attacker, two different
    * roster defenders other than the attacker, and a combined multiplier
    * other than 1. */
  predicate Admissible(q: Question) {
    && q.attacker in TypeNames && q.first in TypeNames && q.second in TypeNames
    && q.first != q.attacker && q.second != q.attacker && q.first != q.second
    && CombinedEffectiveness(q.attacker, Defenders(q)).multiplier != 1.0
  }

  /** One pass of the loop (lines 35-52) on the questions collected so far:
    * it keeps the list, or appends one question whose multiplier is not 1
    * and whose key is new. A draw whose index is off the roster (which
    * `ValidDraw` excludes) changes nothing. */
  function Step(qs: seq<Question>, d: Draw): (r: seq<Question>)
    ensures r == qs || (|r| == |qs| + 1 && r[..|qs|] == qs && KeyOf(r[|qs|]) !in Keys(qs)
      && CombinedEffectiveness(r[|qs|].attacker, Defenders(r[|qs|])).multiplier != 1.0)
  {
    if d.attackerIndex >= |TypeNames| || |d.shuffled| < 2 then qs
    else
      var attacker := TypeNames[d.attackerIndex];
      var q := Question(attacker, d.shuffled[0], d.shuffled[1]);
      if CombinedEffectiveness(attacker, Defenders(q)).multiplier == 1.0 then qs
      else if KeyOf(q) in Keys(qs) then qs
      else assert (qs + [q])[..|qs|] == qs; qs + [q]
  }

  /** The passes of the loop over all of `draws`, in order: they only ever
    * append, at most one question per draw. */
  function Collect(qs: seq<Question>, draws: seq<Draw>): (r: seq<Question>)
    ensures |qs| <= |r| <= |qs| + |draws| && r[..|qs|] == qs
    decreases |draws|
  {
    if draws == [] then qs
    else
      var next := Step(qs, draws[0]);
      var r := Collect(next, draws[1..]);
      assert r[..|qs|] == r[..|next|][..|qs|];
      r
  }

  /** The first two entries of a draw's shuffled defenders are two different
    * roster names other than the attacker. */
  lemma DrawnPair(d: Draw)
    requires ValidDraw(d)
    ensures |d.shuffled| >= 2
    ensures var a := TypeNames[d.attackerIndex];
      && d.shuffled[0] in TypeNames && d.shuffled[1] in TypeNames
      && d.shuffled[0] != a && d.shuffled[1] != a && d.shuffled[0] != d.shuffled[1]
  {
    var a := TypeNames[d.attackerIndex];
    RosterDistinct();
    PermutationDistinct(OtherTypes(a), d.shuffled);
    OtherTypesCount(a);
    CardBound(OtherTypes(a));
    assert |d.shuffled| == |multiset(d.shuffled)| == |OtherTypes(a)|;
    assert d.shuffled[0] in multiset(OtherTypes(a));
    assert d.shuffled[1] in multiset(OtherTypes(a));
  }

  /** The question a draw proposes: the attacker and the first two shuffled
    * defenders (lines 35-40). */
  function DrawnQuestion(d: Draw): Question
    requires d.attackerIndex < |TypeNames| && |d.shuffled| >= 2
  {
    Question(TypeNames[d.attackerIndex], d.shuffled[0], d.shuffled[1])
  }

  /** A step either keeps the list or appends the drawn question, which is
    * then admissible and has a key not seen before. */
  lemma StepShape(qs: seq<Question>, d: Draw)
    requires ValidDraw(d)
    ensures |d.shuffled| >= 2
    ensures Step(qs, d) == qs
      || (Step(qs, d) == qs + [DrawnQuestion(d)] && Admissible(DrawnQuestion(d)) && KeyOf(DrawnQuestion(d)) !in Keys(qs))
  {
    DrawnPair(d);
  }

  /** Appending a question with a new key keeps the keys pairwise different. */
  lemma AppendNewKey(qs: seq<Question>, q: Question)
    requires KeysDistinct(qs)
    requires KeyOf(q) !in Keys(qs)
    ensures var r := qs + [q];
      KeysDistinct(r)
  {
    var r := qs + [q];
    forall i, j | 0 <= i < j < |r|
      ensures KeyOf(r[i]) != KeyOf(r[j])
    {
      if j == |qs| {
        assert r[i] in qs;
      }
    }
  }

  /** A step keeps the collected questions admissible and their keys
    * pairwise different, and adds at most one question. */
  lemma StepKeeps(qs: seq<Question>, d: Draw)
    requires ValidDraw(d)
    requires forall q | q in qs :: Admissible(q)
    requires KeysDistinct(qs)
    ensures var r := Step(qs, d);
      && (r == qs || (|r| == |qs| + 1 && r[..|qs|] == qs))
      && (forall q | q in r :: Admissible(q))
      && KeysDistinct(r)
  {
    StepShape(qs, d);
    var r := Step(qs, d);
    if r != qs {
      var q := DrawnQuestion(d);
      assert r == qs + [q];
      AppendNewKey(qs, q);
      assert r[..|qs|] == qs;
      AllAppend(qs, q, Admissible);
    }
  }

  /** Every question the loop keeps is admissible, and no two share a key. */
  lemma {:induction false} CollectKeeps(qs: seq<Question>, draws: seq<Draw>)
    requires forall d | d in draws :: ValidDraw(d)
    requires forall q | q in qs :: Admissible(q)
    requires KeysDistinct(qs)
    ensures var r := Collect(qs, draws);
      (forall q | q in r :: Admissible(q)) && KeysDistinct(r)
    decreases |draws|
  {
    if draws != [] {
      StepKeeps(qs, draws[0]);
      CollectKeeps(Step(qs, draws[0]), draws[1..]);
    }
  }

  /** One pass of the loop (lines 35-52): draw, compute the combined
    * multiplier, and keep the question when it is not 1x and its key is
    * new. */
  method Pass(questions: seq<Question>, questionSet: set<QuestionKey>, d: Draw)
    returns (questions': seq<Question>, questionSet': set<QuestionKey>)
    requires ValidDraw(d)
    requires questionSet == Keys(questions)
    ensures questions' == Step(questions, d)
    ensures questionSet' == Keys(questions')
  {
    questions', questionSet' := questions, questionSet;
    DrawnPair(d);
    var attackingType := TypeNames[d.attackerIndex];
    if |d.shuffled| >= 2 {
      var q := Question(attackingType, d.shuffled[0], d.shuffled[1]);
      var e := GetCombinedEffectiveness(attackingType, [q.first, q.second]);
      if e.multiplier != 1.0 {
        var key := KeyOf(q);
        if key !in questionSet {
          KeysAppend(questions, q);
          questions' := questions + [q];
          questionSet' := questionSet + {key};
        }
      }
    }
  }

  /** `generateMasterQuizQuestions` (lines 29-55): passes of the loop, one
    * draw each, until ten questions are collected. The draws stand for the
    * endless random loop of the source, so the method also returns how
    * many it used; it stops early only because the draws ran out. */
  method GenerateMasterQuizQuestions(draws: seq<Draw>)
    returns (questions: seq<Question>, questionSet: set<QuestionKey>, used: nat)
    requires forall d | d in draws :: ValidDraw(d)
    ensures used <= |draws| && |questions| <= 10
    ensures |questions| == 10 || used == |draws|
    ensures questions == Collect([], draws[..used])
    ensures 0 < used ==> |Collect([], draws[..used - 1])| < 10
    ensures questionSet == Keys(questions)
    ensures forall q | q in questions :: Admissible(q)
    ensures KeysDistinct(questions)
  {
    questions := [];
    questionSet := {};
    used := 0;
    assert draws[..0] == [];
    while |questions| < 10 && used < |draws|
      invariant used <= |draws| && |questions| <= 10
      invariant questions == Collect([], draws[..used])
      invariant 0 < used ==> |Collect([], draws[..used - 1])| < 10
      invariant questionSet == Keys(questions)
      decreases |draws| - used
    {
      ghost var before, prefix := questions, draws[..used];
      questions, questionSet := Advance(draws, used, questions, questionSet);
      used := used + 1;
      assert draws[..used - 1] == prefix;
      assert |Collect([], prefix)| == |before| < 10;
    }
    PrefixKeeps(draws, used);
  }

  /** The questions collected from any prefix of valid draws are admissible
    * and have pairwise different keys. */
  lemma PrefixKeeps(draws: seq<Draw>, used: nat)
    requires used <= |draws|
    requires forall d | d in draws :: ValidDraw(d)
    ensures var qs := Collect([], draws[..used]);
      (forall q | q in qs :: Admissible(q)) && KeysDistinct(qs)
  {
    forall d | d in draws[..used] ensures ValidDraw(d) {
      assert d in draws;
    }
    CollectKeeps([], draws[..used]);
  }

  /** One more pass of the loop, on the next draw. */
  method Advance(draws: seq<Draw>, used: nat, questions: seq<Question>, questionSet: set<QuestionKey>)
    returns (questions': seq<Question>, questionSet': set<QuestionKey>)
    requires used < |draws|
    requires forall d | d in draws :: ValidDraw(d)
    requires questions == Collect([], draws[..used])
    requires questionSet == Keys(questions)
    ensures questions' == Collect([], draws[..used + 1])
    ensures questionSet' == Keys(questions')
    ensures |questions'| <= |questions| + 1
  {
    var d := draws[used];
    assert d in draws;
    CollectSnoc([], draws[..used], d);
    TakeOneMore(draws, used);
    questions', questionSet' := Pass(questions, questionSet, d);
  }

  /** One more draw is one more step. */
  lemma {:induction false} CollectSnoc(qs: seq<Question>, draws: seq<Draw>, d: Draw)
    ensures Collect(qs, draws + [d]) == Step(Collect(qs, draws), d)
    decreases |draws|
  {
    if draws == [] {
      assert [d][1..] == [];
    } else {
      assert (draws + [d])[1..] == draws[1..] + [d];
      CollectSnoc(Step(qs, draws[0]), draws[1..], d);
    }
  }

  /** The answer to a kept question is always among the offered options. */
  lemma AnswerIsOffered(q: Question)
    requires Admissible(q)
    ensures exists o | o in OfferedOptions() :: o.multiplier == CombinedEffectiveness(q.attacker, Defenders(q)).multiplier
  {
    CombinedValues(q.attacker, Defenders(q));
    OfferedOptionsShape();
    var m := CombinedEffectiveness(q.attacker, Defenders(q)).multiplier;
    var os := EffectivenessOptions;
    var k := if m == 4.0 then 0 else if m == 2.0 then 1 else if m == 0.5 then 3 else if m == 0.25 then 4 else 5;
    assert os[k].multiplier == m && os[k] in os;
  }

  // ---------------------------------------------------------------------
  // Session
  // ---------------------------------------------------------------------

  /** The state of the `MasterQuiz` component (lines 59-65). */
  class MasterQuizSession {
    var questions: seq<Question>
    var index: nat
    var selected: Option<real>
    var isAnswered: bool
    var score: nat
    var showResults: bool
    var isStarted: bool

    /** The index stays on a question, and each question before the
      * current one, plus the current one once answered, is scored at most
      * once. */
    ghost predicate Valid()
      reads this
    {
      && (|questions| > 0 ==> index < |questions|)
      && (|questions| == 0 ==> index == 0)
      && score <= index + (if isAnswered then 1 else 0)
    }

    /** `correctMultiplier` (lines 78-81): the combined multiplier of the
      * current question, or 1 when there is none; for a question the
      * generator keeps it is one of the offered options. */
    function CorrectMultiplier(): (m: real)
      reads this
      ensures index >= |questions| ==> m == 1.0
      ensures index < |questions| && Admissible(questions[index]) ==>
        exists o | o in OfferedOptions() :: o.multiplier == m
    {
      if index < |questions| then
        var q := questions[index];
        var m := CombinedEffectiveness(q.attacker, Defenders(q)).multiplier;
        if Admissible(q) then AnswerIsOffered(q); m else m
      else 1.0
    }

    /** The initial state: not started, no questions. */
    constructor ()
      ensures Valid()
      ensures questions == [] && index == 0 && selected == None && !isAnswered
      ensures score == 0 && !showResults && !isStarted
    {
      questions := [];
      index := 0;
      selected := None;
      isAnswered := false;
      score := 0;
      showResults := false;
      isStarted := false;
    }

    /** The start button and the effect on `isStarted` (lines 67-71, 116):
      * start and generate the questions. */
    method Start(draws: seq<Draw>)
      requires Valid() && !isStarted && questions == []
      requires forall d | d in draws :: ValidDraw(d)
      modifies this
      ensures Valid() && isStarted
      ensures |questions| <= 10 && KeysDistinct(questions)
      ensures exists u: nat | u <= |draws| :: questions == Collect([], draws[..u]) && (|questions| == 10 || u == |draws|)
      ensures forall q | q in questions :: Admissible(q)
      ensures index == old(index) && score == old(score) && selected == old(selected)
      ensures isAnswered == old(isAnswered) && showResults == old(showResults)
    {
      isStarted := true;
      var generated, _, used := GenerateMasterQuizQuestions(draws);
      questions := generated;
    }

    /** Picking an option of the radio group (line 169); the group is
      * disabled once the question is answered. */
    method Select(multiplier: real)
      requires Valid() && !isAnswered
      modifies this`selected
      ensures selected == Some(multiplier)
    {
      selected := Some(multiplier);
    }

    /** `handleSubmit` (lines 83-91); the Submit button is shown only on an
      * unanswered question. */
    method Submit()
      requires Valid() && isStarted && |questions| > 0 && !showResults && !isAnswered
      modifies this
      ensures Valid()
      ensures old(selected).None? ==> !isAnswered && score == old(score)
      ensures old(selected).Some? ==>
        isAnswered && score == old(score) + (if old(selected).value == old(CorrectMultiplier()) then 1 else 0)
      ensures questions == old(questions) && index == old(index) && selected == old(selected)
      ensures showResults == old(showResults) && isStarted == old(isStarted)
    {
      if selected.None? {
        return;
      }
      var isCorrect := selected.value == CorrectMultiplier();
      if isCorrect {
        score := score + 1;
      }
      isAnswered := true;
    }

    /** `handleNext` (lines 93-101); the Next button is shown only once the
      * question is answered. */
    method Next()
      requires Valid() && isStarted && |questions| > 0 && !showResults && isAnswered
      modifies this
      ensures Valid()
      ensures old(index) < |questions| - 1 ==>
        index == old(index) + 1 && !isAnswered && selected == None && !showResults
      ensures old(index) >= |questions| - 1 ==>
        showResults && index == old(index) && isAnswered && selected == old(selected)
      ensures questions == old(questions) && score == old(score) && isStarted == old(isStarted)
      ensures score <= |questions|
    {
      if index < |questions| - 1 {
        index := index + 1;
        isAnswered := false;
        selected := None;
      } else {
        showResults := true;
      }
    }

    /** `restartQuiz` (lines 103-110): new questions, everything else back
      * to the start of a quiz. */
    method Restart(draws: seq<Draw>)
      requires forall d | d in draws :: ValidDraw(d)
      modifies this
      ensures Valid()
      ensures |questions| <= 10 && KeysDistinct(questions)
      ensures exists u: nat | u <= |draws| :: questions == Collect([], draws[..u]) && (|questions| == 10 || u == |draws|)
      ensures forall q | q in questions :: Admissible(q)
      ensures index == 0 && score == 0 && !showResults && !isAnswered && selected == None
      ensures isStarted == old(isStarted)
    {
      var generated, _, used := GenerateMasterQuizQuestions(draws);
      questions := generated;
      index := 0;
      score := 0;
      showResults := false;
      isAnswered := false;
      selected := None;
    }
  }
}
