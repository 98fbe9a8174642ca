# Football quiz: session controller and question card

A single-page quiz shows one AI-generated football question at a time, with
three answer options and an illustration, and keeps a score for the session.
This project models its two pieces of logic in Dafny and proves what they
promise:

- **The session controller** (`App.tsx`). It holds six pieces of state: the
  phase (`Menu`, `Playing`, `ShowingResult`), the current quiz item, the loading
  flag, the error message, the score and the selected answer. Its handlers
  are start/retry, answer and next. The shared `loadNewQuestion` is split into
  two atomic steps: `Begin` runs up to the await, and `Settle(outcome)` runs
  the try, the catch and the finally. The fetch is an abstract outcome,
  `Success(item)` or `Failure`. `Render` is the screen selection of
  `renderGameState`: error first, then the spinner, then the menu, then the
  card (with a Next button in result view). `Triggers` says which handlers
  each screen exposes.
- **The question card** (`components/QuestionCard.tsx`). `StyleOf` is
  `getButtonClass` with the four looks as an enum. `Buttons` renders the
  options in order. A button is disabled in result view, and a disabled
  button reports no click.

The handlers change state in place. So the `App.Session` class has the six
fields, and each method is proved equal to a transition function on a
`State` snapshot (`Begin`, `Settle`, `StartGame`, `SelectAnswer`,
`NextQuestion`). The lemmas are stated over those functions. A *gated run* is
a sequence of events where each click is on a trigger the current screen
shows, and a settlement happens only while a load is pending. Over gated runs
the model proves:

- an invariant: a pending load has no error, the score is never negative, an
  error stands only over the menu, and an item is present outside the menu;
- no trigger is shown while loading;
- an answer is taken at most once per loaded question;
- the score rises by at most one between two loads.

Three behaviours of the code matter here:

- A failed fetch leaves the previous `quizItem` in place. It is not cleared.
- Nothing checks that a fetched item has three options or that its correct
  answer is among them. The model assumes neither.
  `QuestionCard.CorrectHighlight` shows the consequence: if the correct answer
  is missing from the options, no button turns green.
- The error screen is chosen by JavaScript truthiness (`if (error)`). The
  model renders it only for a non-empty message.

## Model

| member | source | states |
|---|---|---|
| `QuestionCard.StyleOf` | components/QuestionCard.tsx:14-30 | the exact condition for each of the four styles: Neutral iff not in result view; Correct iff in result view and the option is the correct answer, also when it is the pick; WrongPick iff in result view, not correct and picked; Dimmed otherwise. So the styles are exclusive and exhaustive |
| `QuestionCard.Buttons` | components/QuestionCard.tsx:49-54 | one button per option, in order, labelled with that option, styled by `StyleOf`, enabled exactly when not in result view |
| `QuestionCard.ClickableAnswersAreOptions` | components/QuestionCard.tsx:49-53 | the answers a click can report are exactly the item's options in rendered order outside result view, and none in result view |
| `QuestionCard.AnswerGate` | components/QuestionCard.tsx:52-53 | `onAnswerSelect(a)` can fire iff the card is not in result view and `a` is one of the options |
| `QuestionCard.ClickableAnswers` | components/QuestionCard.tsx:52-53 | a click reports the label of an enabled button: there are never more reportable answers than buttons, and when every button is disabled nothing is reportable (a disabled button fires no click); that outside result view the answers are exactly the options in order is `ClickableAnswersAreOptions` |
| `QuestionCard.UniformBeforeResult` | components/QuestionCard.tsx:15-17 | before the result is shown, every button is enabled and Neutral, whatever the correct answer and the pick |
| `QuestionCard.CorrectHighlight` | components/QuestionCard.tsx:19-24 | in result view a button is Correct iff its option equals the correct answer; if the correct answer is not among the options, no button is Correct |
| `QuestionCard.WrongPickHighlight` | components/QuestionCard.tsx:25-27 | in result view a wrong pick that is among the options has a WrongPick button, and every WrongPick button is labelled with the pick |
| `App.Begin` | App.tsx:17-19 | beginning a load sets loading, clears the error and the selected answer, and leaves the phase, the item and the score alone |
| `App.Settle` | App.tsx:21-30 | after a settlement loading is false; success installs the fetched item and moves to Playing; failure sets the fixed error, returns to Menu and keeps the old item; the score and the pick are untouched either way |
| `App.StartGame` | App.tsx:33-36 | starting resets the score to 0, whatever it was, and begins a load |
| `App.SelectAnswer` | App.tsx:38-44 | selecting records the answer and moves to ShowingResult; the score rises by exactly 1 iff there is an item and the answer is its correct answer, and otherwise stays |
| `App.NextQuestion` | App.tsx:46-48 | next keeps the score and only begins a load |
| `App.Render` | App.tsx:50-111 | screen precedence: a non-empty error shows the error screen; otherwise loading shows the spinner; otherwise Menu shows the menu; otherwise the card is shown iff there is an item, with the current buttons, in result view iff ShowingResult, and with Next iff ShowingResult |
| `App.IsCorrect` | App.tsx:40 | `answer === quizItem?.correctAnswer`: false with no item, and with an item true iff the answer equals its correct answer |
| `App.ShowsError` | App.tsx:51 | the truthiness test `if (error)`: only a present error can show, the fixed fetch-error message always does, and an empty message does not |
| `App.Triggers` | App.tsx:51-107 | the handlers each screen wires: the retry button (55-56) and the start button (75-76) expose only start; the spinner (65-67) and the empty card branch expose nothing; the card (91-104) exposes, in rendered order, one answer trigger per clickable answer followed by Next exactly when it shows Next, and nothing else |
| `App.Fire` | App.tsx:33-48 | what each button's handler does: start and retry reset the score to 0 and begin a load; an answer button records its answer and shows the result; Next keeps the score and begins a load |
| `App.AnswerTriggerGate` | App.tsx:83-96 | an answer trigger for `a` is on screen iff there is no error, no load, the phase is Playing, there is an item, and `a` is one of its options |
| `App.NextTriggerGate` | App.tsx:97-104 | the Next button is on screen iff there is no error, no load, the phase is ShowingResult and there is an item |
| `App.StartTriggerGate` | App.tsx:51-82 | the start button is on screen iff there is an error or the idle menu; on the error screen it is the only trigger and retrying resets the score to 0 |
| `App.AnswerOnlyOnce` | App.tsx:38-44 | after an answer taken through the screen no answer trigger is left, while calling the handler a second time on the correct answer would count it twice |
| `App.InitialInv` | App.tsx:9-14 | the initial state satisfies the invariant |
| `App.StepInv` | App.tsx:16-48 | every enabled click or settlement keeps the invariant (pending load implies no error, score non-negative, error only over Menu, item present outside Menu) |
| `App.RunInv` | App.tsx:16-48 | every gated run keeps the invariant |
| `App.NoTriggerWhileLoading` | App.tsx:65-67 | in a reachable state with a pending load only the spinner is shown, and it has no trigger |
| `App.NeverBlank` | App.tsx:83-107 | in a reachable state the card branch always has an item, so the screen is never empty |
| `App.AnswersBetweenLoads` | App.tsx:38-48 | a gated run with no start, retry or next takes at most one answer, and none when no question is being played or loaded |
| `App.ScoreBetweenLoads` | App.tsx:38-48 | over such a run the score rises by at most 1, and not at all when no question is being played or loaded |
| `App.LoadCompletes` | App.tsx:16-31 | a load run to completion keeps the score and clears the loading flag and the pick; on success the new item is playable with exactly its options as answer triggers; on failure the error screen with its retry button is shown |
| `App.CorrectPickScenario` | App.tsx:33-44 | start, a fetched item and a pick of its correct answer form a gated run that ends with score 1, the pick recorded, the result shown, and Next as the only trigger |
| `App.FailureThenRetryScenario` | App.tsx:46-63 | from a shown result, next and a failed fetch form a gated run that keeps the score and shows the error; retrying from there resets the score to 0 |
| `App.Session.constructor` | App.tsx:9-14 | the fields start as Menu, no item, not loading, no error, score 0, no pick |
| `App.Session.BeginLoad` | App.tsx:17-19 | updates the fields in place to `Begin` of the old state |
| `App.Session.SettleLoad` | App.tsx:21-30 | updates the fields in place to `Settle` of the old state and the outcome; loading is false and the score unchanged |
| `App.Session.HandleStartGame` | App.tsx:33-36 | updates the fields in place to `StartGame` of the old state; the score is 0 and a load is pending |
| `App.Session.HandleAnswerSelect` | App.tsx:38-44 | updates the fields in place to `SelectAnswer` of the old state; the score rises by 1 exactly for the correct answer |
| `App.Session.HandleNextQuestion` | App.tsx:46-48 | updates the fields in place to `NextQuestion` of the old state; the score is unchanged and a load is pending |

## Left out

- The question provider (`src/services/geminiService.ts`) is not part of this model. The API-key check, the text and image generation calls, the JSON parsing and the data-URI encoding are left out with the provider. The API-key check throws when the module is loaded and never becomes a fetch failure. The model takes only the outcome of `fetchQuizItem`, success with some item or failure. Like the source, it does not assume that a fetched item has three options or contains its correct answer.
- FetchOutcome: `Success(item)` assumes a well-typed item, with `options` a list of strings and `correctAnswer` a string. `fetchQuizItem` checks no field types (geminiService.ts:97-102). An item without `options` would make `quizItem.options.map` (components/QuestionCard.tsx:49) throw during render, and the model does not capture that failure.
- The loading spinner (`src/components/LoadingSpinner.tsx`) is pure presentation. The model keeps only the fact that it has no trigger.
- Markup and styling are left out: CSS class strings, the background image, the static texts and the image element. `Screen` keeps only what decides behaviour: which screen is shown, the score, the item, the buttons and the Next button.
- `console.error` logging in the catch branch is left out.
- React's runtime is left out: `useState`/`useCallback`, render timing, update batching and async scheduling. `Begin` and `Settle` are atomic steps. Overlapping fetches are not modelled, because a settlement is enabled only while a load is pending, and the source relies on the spinner hiding every trigger during a load.
- The `default: return null` branch of the phase switch is left out, because the phase enum has no other value.
