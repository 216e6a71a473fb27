/** The single-type quiz (src/components/quiz.tsx): the answer options, the
  * correct answer for the current question and the session state with its
  * handlers. The progress store of the spaced-repetition hook is shared
  * with the session; random draws and the clock are parameters. */
module Quiz {
  import opened Wrappers
  import opened SeqUtil
  import opened PokemonData
  import opened SpacedRepetition

  /** `EFFECTIVENESS_OPTIONS` (lines 17-22): the radio buttons. */
  const QuizOptions: seq<string> := ["Super Effective", "Normal", "Not Very Effective", "No Effect"]

  /** Every label `getEffectiveness` gives is one of the options. */
  lemma LabelsAreOptions()
    ensures forall a, d | a in TypeNames && d in TypeNames :: Effectiveness(a, d).caption in QuizOptions
  {
    forall m: real ensures SingleLabel(m) in QuizOptions {
      assert SingleLabel(m) in {QuizOptions[0], QuizOptions[1], QuizOptions[2], QuizOptions[3]};
    }
  }

  /** Every option is the label of some roster matchup: Water on Fire,
    * Normal on Normal, Water on Water and Normal on Ghost. */
  lemma OptionsAreLabels()
    ensures forall o | o in QuizOptions ::
      exists a, d | a in TypeNames && d in TypeNames :: Effectiveness(a, d).caption == o
  {
    EffectivenessExamples();
    assert TypeNames[0] == "Normal" && TypeNames[1] == "Fire" && TypeNames[2] == "Water" && TypeNames[13] == "Ghost";
    assert Effectiveness(TypeNames[2], TypeNames[1]).caption == QuizOptions[0];
    assert Effectiveness(TypeNames[0], TypeNames[0]).caption == QuizOptions[1];
    assert Effectiveness(TypeNames[2], TypeNames[2]).caption == QuizOptions[2];
    assert Effectiveness(TypeNames[0], TypeNames[13]).caption == QuizOptions[3];
  }

  /** The correct answer (lines 49-52): `getEffectiveness` for the current
    * defender, or 1 and 'Normal' when there is none; its label is always
    * one of the options. */
  function CorrectAnswer(attacker: string, defender: Option<string>): (r: Effect)
    requires attacker in TypeNames
    requires defender.Some? ==> defender.value in TypeNames
    ensures r.caption in QuizOptions
    ensures r.caption == "Normal" <==> r.multiplier == 1.0
  {
    LabelsAreOptions();
    if defender.None? then Effect(1.0, "Normal") else Effectiveness(attacker, defender.value)
  }

  /** The correct answer's label is one of the options and names its
    * multiplier; without a defender it is 1 and 'Normal'. */
  lemma CorrectAnswerIsOption(attacker: string, defender: Option<string>)
    requires attacker in TypeNames
    requires defender.Some? ==> defender.value in TypeNames
    ensures var r := CorrectAnswer(attacker, defender);
      && r.caption in QuizOptions
      && (r.caption == "Normal" <==> r.multiplier == 1.0)
      && (defender.None? ==> r == Effect(1.0, "Normal"))
      && (defender.Some? ==> r.multiplier == ChartEntry(attacker, defender.value))
  {
    if defender.Some? {
      EffectivenessLabels(attacker, defender.value);
    }
  }

  /** The text shown when the explanation request fails (line 63). */
  const ExplanationFallback := "Sorry, I couldn't come up with an explanation right now."

  /** The state of the `Quiz` component (lines 26-33) and the hook's store. */
  class QuizSession {
    var attacker: string
    var questions: seq<string>
    var index: nat
    var selected: Option<string>
    var isAnswered: bool
    var score: nat
    var showResults: bool
    var explanation: string
    var isAiLoading: bool
    const store: ProgressStore

    /** The attacker and the questions are roster names, the index stays
      * on a question, and each question before the current one, plus the
      * current one once answered, is scored at most once. */
    ghost predicate Valid()
      reads this
    {
      && attacker in TypeNames
      && (forall t | t in questions :: t in TypeNames)
      && (|questions| > 0 ==> index < |questions|)
      && (|questions| == 0 ==> index == 0)
      && score <= index + (if isAnswered then 1 else 0)
    }

    /** The current defender, `questions[currentQuestionIndex]`. */
    function Defender(): Option<string>
      reads this
    {
      if index < |questions| then Some(questions[index]) else None
    }

    /** A fresh quiz over `qs`: first question, no score, nothing selected. */
    ghost predicate Started(qs: seq<string>)
      reads this
    {
      questions == qs && index == 0 && score == 0 && !showResults && !isAnswered && selected == None
    }

    /** The quiz state is as it was. */
    twostate predicate Kept()
      reads this
    {
      && questions == old(questions) && index == old(index) && score == old(score)
      && showResults == old(showResults) && isAnswered == old(isAnswered) && selected == old(selected)
    }

    /** The component's first render: no questions yet. */
    constructor (attacker: string, store: ProgressStore)
      requires attacker in TypeNames
      ensures Valid() && this.attacker == attacker && this.store == store
      ensures questions == [] && index == 0 && selected == None && !isAnswered
      ensures score == 0 && !showResults && explanation == "" && !isAiLoading
    {
      this.attacker := attacker;
      this.store := store;
      questions := [];
      index := 0;
      selected := None;
      isAnswered := false;
      score := 0;
      showResults := false;
      explanation := "";
      isAiLoading := false;
    }

    /** The effect of lines 35-42: new questions from the store and a fresh
      * quiz. It runs on mount and whenever `getQuizQuestions` changes, which
      * is after every successful save (see SubmitAsWritten); a new attacker
      * remounts the component (src/app/page.tsx:59). `qs` is what
      * `getQuizQuestions` returned; when it throws (a None here) the effect
      * stops before any state is set. */
    method Reset(newAttacker: string, rs1: seq<nat>, rs2: seq<nat>) returns (qs: Option<seq<string>>)
      requires Valid() && newAttacker in TypeNames
      requires QuizDraws(store.progress, newAttacker, rs1, rs2)
      modifies this
      ensures qs == QuizQuestions(old(store.progress), newAttacker, rs1, rs2)
      ensures Valid() && attacker == newAttacker
      ensures qs.Some? ==> Started(qs.value)
      ensures qs.None? ==> Kept()
      ensures explanation == old(explanation) && isAiLoading == old(isAiLoading)
    {
      qs := store.GetQuizQuestions(newAttacker, rs1, rs2);
      Refill(newAttacker, qs);
    }

    /** `restartQuiz` (lines 92-99): the same, for the current attacker. */
    method Restart(rs1: seq<nat>, rs2: seq<nat>) returns (qs: Option<seq<string>>)
      requires Valid()
      requires QuizDraws(store.progress, attacker, rs1, rs2)
      modifies this
      ensures qs == QuizQuestions(old(store.progress), old(attacker), rs1, rs2)
      ensures Valid() && attacker == old(attacker)
      ensures qs.Some? ==> Started(qs.value)
      ensures qs.None? ==> Kept()
      ensures explanation == old(explanation) && isAiLoading == old(isAiLoading)
    {
      qs := store.GetQuizQuestions(attacker, rs1, rs2);
      Refill(attacker, qs);
    }

    /** The state updates shared by the attacker effect and `restartQuiz`,
      * for attacker `a` and what `getQuizQuestions` returned for it: None
      * stops before any update. */
    method Refill(a: string, qs: Option<seq<string>>)
      requires Valid() && a in TypeNames
      requires qs.Some? ==> forall t | t in qs.value :: t in TypeNames
      modifies this
      ensures Valid() && attacker == a
      ensures qs.Some? ==> Started(qs.value)
      ensures qs.None? ==> Kept()
      ensures explanation == old(explanation) && isAiLoading == old(isAiLoading)
    {
      attacker := a;
      if qs.None? {
        return;
      }
      questions := qs.value;
      index := 0;
      score := 0;
      showResults := false;
      isAnswered := false;
      selected := None;
    }

    /** Picking an option of the radio group (line 142); the group is
      * disabled once the question is answered. */
    method Select(option: string)
      requires Valid() && !isAnswered
      modifies this`selected
      ensures selected == Some(option)
    {
      selected := Some(option);
    }

    /** `handleSubmit` (lines 69-79), reachable while a question is shown
      * and not yet answered (lines 101-105, 153-160). Nothing happens
      * without a selection (or with an empty one); otherwise the score
      * grows exactly when the selection is the correct label, the result
      * is recorded once in the store, and the explanation request starts. */
    method Submit(now: int, writeOk: bool)
      requires Valid() && |questions| > 0 && !showResults && !isAnswered
      modifies this, store
      ensures Valid() && score <= |questions|
      ensures questions == old(questions) && index == old(index) && selected == old(selected)
      ensures attacker == old(attacker) && showResults == old(showResults)
      ensures (old(selected).None? || old(selected) == Some("")) ==>
        !isAnswered && score == old(score) && store.progress == old(store.progress)
        && explanation == old(explanation) && isAiLoading == old(isAiLoading)
      ensures old(selected).Some? && old(selected) != Some("") ==>
        var isCorrect := old(selected).value == CorrectAnswer(attacker, Some(questions[index])).caption;
        && isAnswered
        && score == old(score) + (if isCorrect then 1 else 0)
        && store.progress == (if writeOk then Recorded(old(store.progress), attacker, questions[index], isCorrect, now) else old(store.progress))
        && explanation == "" && isAiLoading
    {
      if selected.None? || selected == Some("") {
        return;
      }
      var correct := CorrectAnswer(attacker, Defender());
      var isCorrect := selected.value == correct.caption;
      if isCorrect {
        score := score + 1;
      }
      store.RecordResult(attacker, questions[index], isCorrect, now, writeOk);
      isAnswered := true;
      isAiLoading := true;
      explanation := "";
    }

    /** `handleSubmit` followed by what the source does next. A successful
      * save gives the hook a new `progress`, hence a new `getQuizQuestions`,
      * and the effect of lines 35-42 runs again, doing what `restartQuiz`
      * does: the quiz is refilled and
      * reset to its first question with score 0, so the Next button is never
      * reached while the storage works. The effect throws (a None) only for a
      * stored level above 6, which cannot happen once every level is in
      * [0, 5]. */
    method SubmitAsWritten(now: int, writeOk: bool, rs1: seq<nat>, rs2: seq<nat>) returns (qs: Option<seq<string>>)
      requires Valid() && |questions| > 0 && !showResults && !isAnswered
      requires writeOk && selected.Some? && selected != Some("") ==>
        QuizDraws(Recorded(store.progress, attacker, questions[index],
          selected.value == CorrectAnswer(attacker, Some(questions[index])).caption, now), attacker, rs1, rs2)
      modifies this, store
      ensures Valid() && attacker == old(attacker)
      ensures !(writeOk && old(selected).Some? && old(selected) != Some("")) ==> qs.None?
      ensures qs.Some? ==> Started(qs.value)
      ensures writeOk && old(selected).Some? && old(selected) != Some("") && LevelsInRange(old(store.progress)) ==>
        qs.Some? && index == 0 && score == 0 && !isAnswered && !showResults
    {
      var rerun := writeOk && selected.Some? && selected != Some("");
      ghost var p0, d := store.progress, questions[index];
      ghost var isCorrect := selected.Some? && selected.value == CorrectAnswer(attacker, Some(d)).caption;
      ghost var p1 := Recorded(p0, attacker, d, isCorrect, now);
      if rerun && LevelsInRange(p0) {
        RecordedInRange(p0, attacker, d, isCorrect, now);
        InRangeBounded(p1, attacker);
        BoundedWeights(p1, attacker);
      }
      Submit(now, writeOk);
      qs := None;
      if rerun {
        assert store.progress == p1;
        qs := Restart(rs1, rs2);
      }
    }

    /** The end of the explanation request (lines 59-66): its text, or the
      * fallback text when it fails; loading stops either way. */
    method ReceiveExplanation(result: Option<string>)
      modifies this`explanation, this`isAiLoading
      ensures explanation == if result.Some? then result.value else ExplanationFallback
      ensures !isAiLoading
    {
      explanation := if result.Some? then result.value else ExplanationFallback;
      isAiLoading := false;
    }

    /** `handleNext` (lines 81-90), reachable once the question is answered
      * (lines 153-156): the next question with the selection and the
      * explanation cleared, or the results after the last one. */
    method Next()
      requires Valid() && |questions| > 0 && !showResults && isAnswered
      modifies this
      ensures Valid() && score <= |questions|
      ensures old(index) < |questions| - 1 ==>
        index == old(index) + 1 && !isAnswered && selected == None && explanation == "" && !showResults
      ensures old(index) >= |questions| - 1 ==>
        showResults && index == old(index) && isAnswered && selected == old(selected) && explanation == old(explanation)
      ensures questions == old(questions) && score == old(score) && attacker == old(attacker)
      ensures isAiLoading == old(isAiLoading)
    {
      if index < |questions| - 1 {
        index := index + 1;
        isAnswered := false;
        selected := None;
        explanation := "";
      } else {
        showResults := true;
      }
    }
  }
}
