# Pokémon type tutor in Dafny

This project models the logic of the type tutor. That covers the type-effectiveness engine, the mastery scheduler, the two quiz sessions and the two matchup views, each as a module:

| module | file | models |
|---|---|---|
| `PokemonData` | `pokemon_data.dfy` | `src/lib/pokemon-data.ts`: the 18-type roster, the sparse exception table, its densification into `TYPE_CHART`, `getEffectiveness`, `getCombinedEffectiveness` and `getTypeColor` |
| `SpacedRepetition` | `spaced_repetition.dfy` | `src/hooks/use-spaced-repetition.ts`: the Fisher–Yates `shuffleArray`, the progress store with `recordResult` and `saveProgress`, the mount-time load, and `getQuizQuestions` |
| `MasterQuiz` | `master_quiz.dfy` | `src/components/master-quiz.tsx`: `EFFECTIVENESS_OPTIONS`, the rejection-sampling question generator and the session handlers |
| `Quiz` | `quiz.dfy` | `src/components/quiz.tsx`: the option list, the correct-answer derivation, the attacker-change effect and the session handlers |
| `Matchups` | `matchups.dfy` | the shared `forEach` that sorts the roster into 2x, 0.5x and 0x lists |
| `EffectivenessDisplay` | `effectiveness_display.dfy` | `src/components/effectiveness-display.tsx`: the `matchups` memo for an attacker, the dialog's badge, and the click and close handlers |
| `ResistanceDisplay` | `resistance_display.dfy` | `src/components/resistance-display.tsx`: the same for a defender |
| `SeqUtil`, `Wrappers` | `seq_util.dfy`, `wrappers.dfy` | `filter`, `slice(0, n)`, `[...new Set(...)]` and `map` on lists with their laws; `Option` |

Modelling choices:
- Type names are strings.
- Multipliers are exact `real`s. Every value that occurs is 0, 0.25, 0.5, 1, 2 or 4, or a product of such values.
- Loops stay loops:
  - the chart densification (`Densify`, `DenseRow`);
  - the label `if` chains;
  - the in-place swap loop of `shuffleArray` on an `array`;
  - the generator's `while` loop;
  - the bucketing `forEach`.
- The React components become classes with one field per `useState`. The store of the hook is a class whose `progress` field the handlers reassign.
- Buttons are only reachable in certain render states. For example, Submit shows only on an unanswered question and Next only on an answered one. These render gates are preconditions of the handlers.

Randomness and the clock are inputs:
- `Math.random` in `shuffleArray` becomes a sequence of draws `rs` with `rs[i] <= i`.
- Each pass of the master-quiz generator consumes a `Draw`. A draw holds the attacker index and the shuffled defenders, required to be a rearrangement of the roster without that attacker.
- `Date.now()` is a parameter `now`.
- The storage write is a flag `writeOk`.
- The stored value read on mount is `Missing`, `Unreadable` or `Saved(progress)`.

Two behaviours of the code worth noting:
- An empty defender list gives multiplier 1 with label `'Normal'`, where a non-empty product of 1 gets `'Normal Damage'` (`src/lib/pokemon-data.ts:68-70`).
- When the storage write throws, `saveProgress` keeps the old state value (`src/hooks/use-spaced-repetition.ts:44-51`). Only the row object that `recordResult` mutates changes (see Left out).

## Model

| member | source | states |
|---|---|---|
| PokemonData.Densify | src/lib/pokemon-data.ts:46-53 | the nested loop builds exactly the dense chart: every roster attacker, and for it every roster defender, mapped to the listed exception or 1 |
| PokemonData.DenseRow | src/lib/pokemon-data.ts:49-52 | the inner loop builds one attacker's row: each defender of the roster mapped to its exception or 1, and nothing else |
| PokemonData.DensifiedShape | src/lib/pokemon-data.ts:48-53 | a densified chart is defined exactly on names x names, and each entry is the exception when one is listed, else 1 |
| PokemonData.TypeChartDense | src/lib/pokemon-data.ts:25-53 | `TYPE_CHART` is total over roster x roster; each entry is the exception-table value when listed, else 1; every entry is 0, 0.5, 1 or 2, and it is 1 exactly when no exception is listed |
| PokemonData.ExceptionTableWellFormed | src/lib/pokemon-data.ts:25-44 | every listed exception is 0, 0.5 or 2, never the default 1 |
| PokemonData.ExceptionTableNames | src/lib/pokemon-data.ts:22-44 | every attacker and defender named in the exception table is a roster name |
| PokemonData.RosterDistinct | src/lib/pokemon-data.ts:1-22 | `types` is the roster's names in order, there are 18 of them, and no name appears twice |
| PokemonData.OtherTypes | src/lib/pokemon-data.ts:22 | the roster without the attacker has no repeats and holds exactly the roster names other than the attacker |
| PokemonData.OtherTypesCount | src/lib/pokemon-data.ts:1-22 | at least 17 candidates remain once the attacker is taken out of the roster |
| PokemonData.GetEffectiveness | src/lib/pokemon-data.ts:55-62 | the `let label` chain returns the chart value unchanged with the label of the single-type mapping |
| PokemonData.Effectiveness | src/lib/pokemon-data.ts:55-62 | the value `getEffectiveness` returns is a single-type multiplier, labelled 'Normal' exactly when it is 1 |
| PokemonData.EffectivenessLabels | src/lib/pokemon-data.ts:55-62 | the multiplier is the chart value, it is 0, 0.5, 1 or 2, and each label holds exactly for its value: 2 'Super Effective', 0.5 'Not Very Effective', 0 'No Effect', 1 'Normal' |
| PokemonData.EffectivenessExamples | src/lib/pokemon-data.ts:26-28 | Water on Fire is 2 'Super Effective', Water on Water 0.5 'Not Very Effective', Normal on Ghost 0 'No Effect', Normal on Normal 1 'Normal' |
| PokemonData.Factor | src/lib/pokemon-data.ts:73 | a lookup `TYPE_CHART[attacker]?.[defender] ?? 1` is always a single-type multiplier: 0, 0.5, 1 or 2 |
| PokemonData.FactorValues | src/lib/pokemon-data.ts:73 | each factor of a combined multiplier is 0, 0.5, 1 or 2, and is 1 when the attacker or the defender is not a roster name (other than the names listed under Left out) |
| PokemonData.FoldIsProduct | src/lib/pokemon-data.ts:72-74 | the `reduce` from an accumulator equals the accumulator times the product of the factors |
| PokemonData.ProductPermutation | src/lib/pokemon-data.ts:72-74 | the product of the factors depends only on their multiset, not their order |
| PokemonData.GetCombinedEffectiveness | src/lib/pokemon-data.ts:64-85 | an empty list gives 1 and 'Normal'; otherwise the multiplier is the product of the lookups, and the label chain ends at the label of that product |
| PokemonData.CombinedEffectiveness | src/lib/pokemon-data.ts:64-85 | the value `getCombinedEffectiveness` returns: 1 with 'Normal' for no defenders, otherwise the product of the lookups; 'No Effect' exactly when the multiplier is 0 |
| PokemonData.CombinedOrderIndependent | src/lib/pokemon-data.ts:72-74 | two defender lists that are rearrangements of each other get the same multiplier and label |
| PokemonData.ZeroFactorForcesNoEffect | src/lib/pokemon-data.ts:72-82 | a defender whose factor is 0 forces multiplier 0 and 'No Effect', whatever the other defenders |
| PokemonData.CombinedValues | src/lib/pokemon-data.ts:72-82 | with one or two defenders the product is 0, 0.25, 0.5, 1, 2 or 4, a single defender gives a single-type value, and the label is always one of the fixed texts, never the `${m}x Damage` template |
| PokemonData.CombinedExampleImmune | src/lib/pokemon-data.ts:64-85 | Ground against Flying/Fire is 0, 'No Effect' |
| PokemonData.CombinedExampleDouble | src/lib/pokemon-data.ts:64-85 | Water against Fire/Ground is 4, '4x Super Effective' |
| PokemonData.CombinedExampleEmpty | src/lib/pokemon-data.ts:68-70 | an empty defender list gives 1 with 'Normal' |
| PokemonData.CombinedExampleTemplate | src/lib/pokemon-data.ts:64-85 | three defenders can reach a product with no fixed label: Water against Grass/Dragon/Water is 0.125 with the template label |
| PokemonData.FindType | src/lib/pokemon-data.ts:89 | `find` gives an entry of the list with the name, or nothing when no entry has it |
| PokemonData.FindByName | src/lib/pokemon-data.ts:89 | `find` returns the first entry with the name |
| PokemonData.TypeColor | src/lib/pokemon-data.ts:88-90 | the colour is never empty: it is white or the colour of a roster entry with that name |
| PokemonData.TypeColorOfRoster | src/lib/pokemon-data.ts:88-90 | a roster name gets its own colour |
| PokemonData.TypeColorOfUnknown | src/lib/pokemon-data.ts:88-90 | a name outside the roster gets '#FFFFFF' |
| SpacedRepetition.ShuffleArray | src/hooks/use-spaced-repetition.ts:21-28 | the swap loop on a fresh copy returns the shuffle of the input for the draws, and leaves the input array as it was |
| SpacedRepetition.ShuffledPermutes | src/hooks/use-spaced-repetition.ts:21-28 | the shuffle has the input's length and the same elements, each as often |
| SpacedRepetition.ShuffleStepsPermutes | src/hooks/use-spaced-repetition.ts:23-26 | every run of swaps keeps the length and the multiset of elements |
| SpacedRepetition.RecordedCorrect | src/hooks/use-spaced-repetition.ts:60-74 | a correct answer sets the level to min(5, old + 1), stamps `lastCorrect` with now and keeps `lastIncorrect`; an absent matchup becomes {1, now, null} |
| SpacedRepetition.RecordedIncorrect | src/hooks/use-spaced-repetition.ts:60-74 | an incorrect answer sets the level to max(0, old - 1), stamps `lastIncorrect` with now and keeps `lastCorrect`; an absent matchup becomes {0, null, now} |
| SpacedRepetition.RecordedFrame | src/hooks/use-spaced-repetition.ts:55-75 | every other (attacker, defender) entry is present exactly when it was, with the same record, and other attackers' rows are unchanged |
| SpacedRepetition.RecordedInRange | src/hooks/use-spaced-repetition.ts:66-72 | levels in [0, 5] stay in [0, 5] |
| SpacedRepetition.CorrectStreak | src/hooks/use-spaced-repetition.ts:67 | n correct answers from level l in [0, 5] give min(5, l + n), so five or more from 0 saturate at 5 |
| SpacedRepetition.IncorrectStreak | src/hooks/use-spaced-repetition.ts:70 | n incorrect answers from a level l >= 0 give max(0, l - n) |
| SpacedRepetition.Recorded | src/hooks/use-spaced-repetition.ts:55-74 | the saved store has exactly the old attackers plus the answering one, that attacker's row has exactly its old defenders plus the answered one, and that record is the updated one |
| SpacedRepetition.ProgressStore.constructor | src/hooks/use-spaced-repetition.ts:31-42 | the store starts empty and adopts a readable saved store; a missing or unreadable one leaves it empty |
| SpacedRepetition.ProgressStore.SaveProgress | src/hooks/use-spaced-repetition.ts:44-51 | the new store is adopted only when the write succeeds; otherwise the old one is kept and nothing is raised |
| SpacedRepetition.ProgressStore.RecordResult | src/hooks/use-spaced-repetition.ts:53-78 | the store becomes the recorded update of the one matchup when the write succeeds and stays as it was otherwise; levels in range stay in range |
| SpacedRepetition.PoolCount | src/hooks/use-spaced-repetition.ts:86-91 | over distinct candidates, each candidate occurs in the `flatMap` pool exactly its weight times, and nothing else occurs |
| SpacedRepetition.PoolWeights | src/hooks/use-spaced-repetition.ts:82-91 | each non-attacker roster name occurs in the weighted pool exactly 6 - level times; no other name occurs |
| SpacedRepetition.UnionMembers | src/hooks/use-spaced-repetition.ts:86-98 | the list before the final shuffle holds exactly the non-attacker roster names whose level is at most 5 |
| SpacedRepetition.UnmasteredMembers | src/hooks/use-spaced-repetition.ts:97 | the unmastered list holds exactly the non-attacker roster names whose level is below 5 |
| SpacedRepetition.ReshuffledPrefix | src/hooks/use-spaced-repetition.ts:100 | the first ten of a reshuffled list without repeats are distinct members of it, and there are min(10, length) of them |
| SpacedRepetition.QuizQuestions | src/hooks/use-spaced-repetition.ts:80-103 | the pipeline throws (None) exactly when some candidate other than the attacker has a stored level above 6, the level that makes `Array(6 - level)` a RangeError |
| SpacedRepetition.QuizQuestionsSound | src/hooks/use-spaced-repetition.ts:82-100 | the questions are at most ten, distinct, roster names, and never the attacker |
| SpacedRepetition.UnionIsCandidates | src/hooks/use-spaced-repetition.ts:86-98 | with every level in [0, 5], the union holds exactly the candidates |
| SpacedRepetition.UnionLength | src/hooks/use-spaced-repetition.ts:82-98 | with every level in [0, 5], the union is at least 17 long |
| SpacedRepetition.QuizQuestionsFull | src/hooks/use-spaced-repetition.ts:82-100 | with every level in [0, 5], every weight is defined, all 17 candidates are in the union, and exactly ten questions are returned |
| SpacedRepetition.ProgressStore.GetQuizQuestions | src/hooks/use-spaced-repetition.ts:80-103 | the method (with its two array shuffles) returns the pipeline's value: at most ten distinct roster names other than the attacker; it leaves the store unchanged |
| MasterQuiz.OfferedCount | src/components/master-quiz.tsx:172 | five radio buttons are shown |
| MasterQuiz.CaptionsAreLabels | src/components/master-quiz.tsx:15-22 | each option's caption is the label `getCombinedEffectiveness` gives its multiplier |
| MasterQuiz.OfferedOptionsShape | src/components/master-quiz.tsx:15-22 | the offered options are the table's entries other than the 1x one, in table order; there are five, and each caption is the combined label of its multiplier |
| MasterQuiz.StrLessTotal | src/components/master-quiz.tsx:45 | the default sort order on strings is total: of two different strings exactly one comes first |
| MasterQuiz.KeyOf | src/components/master-quiz.tsx:45-46 | the key holds the attacker and the same two defenders, the lower in string order first |
| MasterQuiz.KeyEqual | src/components/master-quiz.tsx:45-46 | two questions share a key exactly when they have the same attacker and the same two defenders, in either order |
| MasterQuiz.KeysAppend | src/components/master-quiz.tsx:49-50 | pushing a question adds exactly its key to the key set |
| MasterQuiz.DrawnPair | src/components/master-quiz.tsx:35-40 | a pass always has at least two defenders, and the first two are different roster names other than the attacker |
| MasterQuiz.Step | src/components/master-quiz.tsx:35-52 | a pass keeps the list, or appends one question whose combined multiplier is not 1 and whose key is not among the keys so far |
| MasterQuiz.StepShape | src/components/master-quiz.tsx:35-52 | a pass either keeps the list or appends the drawn question, which is then admissible and has a key not seen before |
| MasterQuiz.StepKeeps | src/components/master-quiz.tsx:35-52 | a pass keeps every question admissible and the keys pairwise different, and adds at most one question at the end |
| MasterQuiz.CollectKeeps | src/components/master-quiz.tsx:34-53 | any number of passes keep every question admissible (roster attacker, two different defenders other than it, multiplier not 1) and the keys pairwise different |
| MasterQuiz.PrefixKeeps | src/components/master-quiz.tsx:34-53 | the questions from any prefix of valid draws are admissible and have pairwise different keys |
| MasterQuiz.Collect | src/components/master-quiz.tsx:34-53 | passes only ever append, at most one question per pass |
| MasterQuiz.Pass | src/components/master-quiz.tsx:35-52 | one pass of the loop body gives the specified step, and the key set stays the set of keys of the questions |
| MasterQuiz.Advance | src/components/master-quiz.tsx:34-53 | the next pass extends the collected questions by the next draw's step, by at most one |
| MasterQuiz.GenerateMasterQuizQuestions | src/components/master-quiz.tsx:29-55 | the loop stops at ten questions or when the draws run out; the questions are the passes over the draws it used, every earlier prefix had fewer than ten; `questionSet` holds exactly their keys, all are admissible and no two share a key |
| MasterQuiz.AnswerIsOffered | src/components/master-quiz.tsx:42-44 | the multiplier of every kept question is one of the offered options |
| MasterQuiz.MasterQuizSession.constructor | src/components/master-quiz.tsx:59-65 | not started, no questions, index 0, score 0, nothing selected |
| MasterQuiz.MasterQuizSession.CorrectMultiplier | src/components/master-quiz.tsx:78-81 | 1 when there is no current question; for a kept question, a multiplier that one of the offered options carries |
| MasterQuiz.MasterQuizSession.Start | src/components/master-quiz.tsx:67-71 | starting generates at most ten admissible questions with distinct keys, the passes over a prefix of the draws that reaches ten or uses them all, and leaves the rest of the session as it was |
| MasterQuiz.MasterQuizSession.Select | src/components/master-quiz.tsx:166-169 | picking an option on an unanswered question selects its multiplier |
| MasterQuiz.MasterQuizSession.Submit | src/components/master-quiz.tsx:83-91 | no selection changes nothing; otherwise the question is answered and the score grows by 1 exactly when the selected multiplier is the correct one |
| MasterQuiz.MasterQuizSession.Next | src/components/master-quiz.tsx:93-101 | before the last question the index advances and the answer and selection are cleared; at the last the results are shown; the index stays on a question and the score never exceeds the question count |
| MasterQuiz.MasterQuizSession.Restart | src/components/master-quiz.tsx:103-110 | new admissible questions with distinct keys (ten, or every draw used), index 0, score 0, results hidden, unanswered, nothing selected |
| Quiz.LabelsAreOptions | src/components/quiz.tsx:17-22 | every label `getEffectiveness` can return is one of the four options |
| Quiz.OptionsAreLabels | src/components/quiz.tsx:17-22 | every option is the label of some roster matchup |
| Quiz.CorrectAnswerIsOption | src/components/quiz.tsx:49-52 | the correct answer's label is one of the options and is 'Normal' exactly when the multiplier is 1; without a defender it is {1, 'Normal'}, otherwise the chart value |
| Quiz.CorrectAnswer | src/components/quiz.tsx:49-52 | the correct label is always one of the four options, and is 'Normal' exactly when the multiplier is 1 |
| Quiz.QuizSession.constructor | src/components/quiz.tsx:24-33 | no questions, index 0, score 0, nothing selected, no explanation |
| Quiz.QuizSession.Reset | src/components/quiz.tsx:35-42 | the effect (run on mount and after every successful save) sets the questions to `getQuizQuestions` for the attacker on the current store; the quiz is fresh (index 0, score 0, results hidden, unanswered, nothing selected), or unchanged when the pipeline throws |
| Quiz.QuizSession.Restart | src/components/quiz.tsx:92-99 | the same for the current attacker |
| Quiz.QuizSession.Refill | src/components/quiz.tsx:36-41 | the state updates shared by the effect and `restartQuiz` |
| Quiz.QuizSession.Select | src/components/quiz.tsx:140-143 | picking an option on an unanswered question selects it |
| Quiz.QuizSession.Submit | src/components/quiz.tsx:69-79 | no selection (or an empty one) changes nothing; otherwise the answer is correct exactly when the selection is the `getEffectiveness` label, the score grows by 1 only then, the result is recorded once for (attacker, defender, isCorrect), and the explanation request starts; the score never exceeds the question count |
| Quiz.QuizSession.SubmitAsWritten | src/components/quiz.tsx:35-79 | `handleSubmit` followed by the effect re-run that a successful save causes: whenever a selection is submitted and the write succeeds on a store with levels in [0, 5], the quiz is back on its first question with score 0, unanswered, results hidden |
| Quiz.QuizSession.ReceiveExplanation | src/components/quiz.tsx:59-66 | the explanation becomes the response or the fallback text, and loading stops |
| Quiz.QuizSession.Next | src/components/quiz.tsx:81-90 | before the last question the index advances and the selection and explanation are cleared; at the last the results are shown; the score never exceeds the question count |
| Matchups.Partition | src/components/effectiveness-display.tsx:159-175 | the `forEach` with its `if`/`else if` chain yields `Bucketed`: the names of value 2, 0.5 and 0, each filtered from the list in order (its properties are `Matchups.BucketedShape`) |
| Matchups.BucketedShape | src/components/effectiveness-display.tsx:164-173 | each bucket holds exactly the names of its value, in list order, without repeats when the list has none |
| Matchups.InBucket | src/components/resistance-display.tsx:165-174 | a name of value m lands in m's bucket |
| EffectivenessDisplay.ComputeMatchups | src/components/effectiveness-display.tsx:158-176 | the memo returns the buckets of the attacker's row |
| EffectivenessDisplay.MatchupsExact | src/components/effectiveness-display.tsx:164-173 | `superEffective`, `notVeryEffective` and `noEffect` hold exactly the roster defenders of value 2, 0.5 and 0; a defender of value 1 is in none and none is in two |
| EffectivenessDisplay.MatchupsInRosterOrder | src/components/effectiveness-display.tsx:159-164 | each list is in roster order, without repeats |
| EffectivenessDisplay.ModalEffect | src/components/effectiveness-display.tsx:105-109 | the badge is what `getEffectiveness` gives for the selected defender, and 1x 'Normal' without one |
| EffectivenessDisplay.Display.constructor | src/components/effectiveness-display.tsx:153-156 | closed, nothing selected |
| EffectivenessDisplay.Display.HandleTypeClick | src/components/effectiveness-display.tsx:178-181 | the clicked defender is selected and the dialog opens |
| EffectivenessDisplay.Display.Close | src/components/effectiveness-display.tsx:210 | the dialog closes and the selection is kept |
| ResistanceDisplay.ComputeMatchups | src/components/resistance-display.tsx:159-177 | the memo returns the buckets of the defender's column |
| ResistanceDisplay.MatchupsExact | src/components/resistance-display.tsx:165-174 | `weaknesses`, `resistances` and `immunities` hold exactly the roster attackers of value 2, 0.5 and 0 against the defender; one of value 1 is in none and none is in two |
| ResistanceDisplay.MatchupsInRosterOrder | src/components/resistance-display.tsx:160-165 | each list is in roster order, without repeats |
| ResistanceDisplay.FireResistsFire | src/components/resistance-display.tsx:165-174 | a type can resist itself: Fire is among Fire's resistances |
| ResistanceDisplay.ModalEffect | src/components/resistance-display.tsx:106-110 | the badge value is what `getEffectiveness` gives for the selected attacker; without one the value is 1x 'Normal', but the badge is not rendered (line 124) |
| ResistanceDisplay.Display.constructor | src/components/resistance-display.tsx:154-157 | closed, nothing selected |
| ResistanceDisplay.Display.HandleTypeClick | src/components/resistance-display.tsx:179-182 | the clicked attacker is selected and the dialog opens |
| ResistanceDisplay.Display.Close | src/components/resistance-display.tsx:211 | the dialog closes and the selection is kept |

## Left out

- The explanation requests are not modelled as running code. These are the language-model call of `Quiz` (`src/components/quiz.tsx:54-67`) and the dialog effects of both views. They are asynchronous network calls. Only the start of the request in `Quiz.QuizSession.Submit` and its completion in `Quiz.QuizSession.ReceiveExplanation` are modelled, as two state changes. Races between a late response and a newer question are not modelled.
- Browser storage and JSON are reduced to the `Stored` value read on mount and the `writeOk` flag on save. The text format and the storage key are not modelled.
- Numbers from storage are not modelled. A level read back from JSON could be any number. The model uses integers, so non-integer or non-numeric levels are out of scope.
- `SpacedRepetition.ProgressStore.RecordResult`: the update is a value update on maps. The source copies only the outer object, so it mutates the stored row and matchup objects it shares with the old state. The old state object therefore changes even when the save fails (when the attacker already had a row). The model does not capture this aliasing.
- React scheduling is not modelled. This covers batched state updates, re-renders and the `setScore(score + 1)` closure. Each handler is one atomic state change; the one effect re-run that follows a handler is modelled in `Quiz.QuizSession.SubmitAsWritten`.
- The text of the `${multiplier}x Damage` label is `Damage(m)`. JavaScript's number formatting is not modelled.
- The master-quiz key is the triple (attacker, lower defender, higher defender), ordered by the default string sort. The source uses the hyphen-joined string. No type name contains a hyphen, so the two agree on the roster, but the string form is not modelled.
- The shuffle imported by `src/components/master-quiz.tsx:13` is not part of this model. Each `Draw` carries its result, which is required only to be a rearrangement of the roster without the attacker.
- `MasterQuiz.GenerateMasterQuizQuestions`: weaker than the source's "exactly ten questions". The endless loop on `Math.random` becomes a finite sequence of draws. The model proves ten questions, or else that every draw was used, every earlier prefix of the draws having produced fewer than ten. Whether a random run reaches ten is a probabilistic fact the model does not state.
- `MasterQuiz.Step`: a draw whose attacker index is off the roster, or with fewer than two defenders, leaves the list unchanged. The source cannot produce such a draw (`ValidDraw` excludes it). The source skips a short defender list with `continue`; the model does the same.
- Both display memos look up `ChartEntry`, which is `TYPE_CHART`'s entry on every roster pair (`PokemonData.TypeChartDense`). Names outside the roster are excluded by the preconditions. In the source an unknown attacker makes `TYPE_CHART[attacker][...]` throw. An unknown defender only reads `undefined`: nothing throws, and in the resistance view every list comes out empty.
- Names outside the roster are not supported by `PokemonData.Effectiveness`, `Quiz.CorrectAnswer` and the two `ModalEffect`s. These require roster names. `getEffectiveness` throws on an unknown attacker, and gives an `undefined` multiplier labelled 'Normal' for an unknown defender.
- FactorValues: a name that is a key of `Object.prototype` (such as `toString` or `constructor`) is assumed never to reach `getCombinedEffectiveness`. In the source `TYPE_CHART[attacker]?.[name]` reads the inherited property, `?? 1` does not apply, and the product and its label come out as NaN. The model gives such a name the factor 1.
- Quiz.QuizSession.Submit: models the handler alone. The effect re-run that a successful save triggers is modelled separately by `Quiz.QuizSession.SubmitAsWritten` (see Findings).
- A new attacker remounts the `Quiz` component (`src/app/page.tsx:59`, which is not part of this model otherwise): the constructor followed by `Quiz.QuizSession.Reset`.
- `Quiz.QuizSession.Reset`: when `getQuizQuestions` throws (a stored level above 6), the model stops before any state is set. The effect's exception itself is not modelled.
- The statistical bias of the weighted pool toward low levels is not stated. The final shuffle of the union discards the weighted order anyway.
- Rendering is not modelled: icons, colours, cards and the type selector.

## Findings

| source | as written | input that shows it | evidently intended | confidence | as-written member | corrected member |
|---|---|---|---|---|---|---|
| src/components/quiz.tsx:35-42 | the effect depends on `getQuizQuestions`, a callback over `progress` (src/hooks/use-spaced-repetition.ts:102) that every successful save replaces (line 47), so each answered question refills the quiz and resets index and score to 0 | any submitted answer while the storage write succeeds, for example the first question with 'Normal' selected: the quiz shows question 1 again with score 0, and Next and the results are never reached | the quiz refills only on mount or for a new attacker; Submit leaves the question answered with its score so Next can advance | medium, not executed | Quiz.QuizSession.SubmitAsWritten | Quiz.QuizSession.Submit |
