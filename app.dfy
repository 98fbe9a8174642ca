/** The session controller of the quiz (App.tsx): six pieces of state, the
    handlers that change them, the two atomic steps of loading a question,
    and the pure selection of what screen, and so which triggers, the user
    sees. */
module App {
  import opened Types
  import opened QuestionCard

  /** The message shown when a fetch fails; its wording is irrelevant here,
      only that it is a fixed non-empty string. */
  const FetchErrorMessage: string := "حدث خطأ أثناء جلب السؤال. يرجى المحاولة مرة أخرى."

  /** A snapshot of the six state fields (App.tsx:9-14). */
  datatype State = State(
    gameState: GameState,
    quizItem: Option<QuizItem>,
    isLoading: bool,
    error: Option<string>,
    score: int,
    selectedAnswer: Option<string>)

  /** The initial values handed to `useState`. */
  const Initial: State := State(Menu, None, false, None, 0, None)

  // ---------------------------------------------------------------------
  // Transitions, as functions of the snapshot
  // ---------------------------------------------------------------------

  /** First half of `loadNewQuestion`, up to the await (App.tsx:17-19). */
  function Begin(s: State): (r: State)
    ensures r.isLoading && r.error == None && r.selectedAnswer == None
    ensures r.gameState == s.gameState && r.quizItem == s.quizItem && r.score == s.score
  {
    s.(isLoading := true, error := None, selectedAnswer := None)
  }

  /** Second half of `loadNewQuestion`: the fetch settles with `outcome`,
      the try or the catch branch runs, then the finally (App.tsx:21-30). */
  function Settle(s: State, outcome: FetchOutcome): (r: State)
    ensures !r.isLoading
    ensures r.score == s.score && r.selectedAnswer == s.selectedAnswer
    ensures outcome.Success? ==>
              r.quizItem == Some(outcome.item) && r.gameState == Playing && r.error == s.error
    ensures outcome.Failure? ==>
              r.quizItem == s.quizItem && r.gameState == Menu && r.error == Some(FetchErrorMessage)
  {
    var s' := match outcome
      case Success(item) => s.(quizItem := Some(item), gameState := Playing)
      case Failure => s.(error := Some(FetchErrorMessage), gameState := Menu);
    s'.(isLoading := false)
  }

  /** `handleStartGame` up to the await: the score is reset, then a load
      begins (App.tsx:33-36). */
  function StartGame(s: State): (r: State)
    ensures r.score == 0 && r.isLoading && r.error == None && r.selectedAnswer == None
    ensures r.gameState == s.gameState && r.quizItem == s.quizItem
  {
    Begin(s.(score := 0))
  }

  /** Whether `answer === quizItem?.correctAnswer`: with no item the right
      side is `undefined`, which no string equals. */
  function IsCorrect(s: State, answer: string): (r: bool)
    ensures s.quizItem.None? ==> !r
    ensures s.quizItem.Some? ==> (r <==> answer == s.quizItem.value.correctAnswer)
  {
    s.quizItem.Some? && answer == s.quizItem.value.correctAnswer
  }

  /** `handleAnswerSelect(answer)` (App.tsx:38-44). The handler itself has
      no guard: it is the disabled buttons that keep it from running twice. */
  function SelectAnswer(s: State, answer: string): (r: State)
    ensures r.selectedAnswer == Some(answer) && r.gameState == ShowingResult
    ensures r.score == s.score || r.score == s.score + 1
    ensures r.score == s.score + 1 <==> IsCorrect(s, answer)
    ensures r.quizItem == s.quizItem && r.isLoading == s.isLoading && r.error == s.error
  {
    var s1 := s.(selectedAnswer := Some(answer));
    var s2 := if IsCorrect(s, answer) then s1.(score := s1.score + 1) else s1;
    s2.(gameState := ShowingResult)
  }

  /** `handleNextQuestion` up to the await: a load begins and the score is
      kept (App.tsx:46-48). */
  function NextQuestion(s: State): (r: State)
    ensures r.score == s.score && r.isLoading && r.error == None && r.selectedAnswer == None
    ensures r.gameState == s.gameState && r.quizItem == s.quizItem
  {
    Begin(s)
  }

  // ---------------------------------------------------------------------
  // Screen selection (renderGameState) and the triggers each screen offers
  // ---------------------------------------------------------------------

  /** What `renderGameState` returns. */
  datatype Screen =
    | ErrorScreen(message: string)            // the message and a retry button
    | Spinner                                 // the loading spinner alone
    | MenuScreen                              // title and a start button
    | CardScreen(score: int, item: QuizItem, buttons: seq<Button>, showNext: bool)
    | Blank                                   // `quizItem && ...` with no item

  /** A user action a screen can expose; each one calls a handler. */
  datatype Trigger =
    | StartButton            // retry or start: `handleStartGame`
    | AnswerButton(answer: string)  // an option button: `handleAnswerSelect(answer)`
    | NextButton             // `handleNextQuestion`

  /** `if (error)`: a string is truthy when it is not empty. */
  function ShowsError(s: State): (r: bool)
    ensures r ==> s.error.Some?
    ensures s.error == Some(FetchErrorMessage) ==> r
    ensures s.error == Some("") ==> !r
  {
    s.error.Some? && s.error.value != ""
  }

  /** `renderGameState` (App.tsx:50-111): error first, then the spinner,
      then the phase; the card appears only when there is an item. */
  function Render(s: State): (r: Screen)
    ensures r.ErrorScreen? <==> ShowsError(s)
    ensures r.Spinner? <==> !ShowsError(s) && s.isLoading
    ensures r.MenuScreen? <==> !ShowsError(s) && !s.isLoading && s.gameState == Menu
    ensures r.CardScreen? <==> !ShowsError(s) && !s.isLoading && s.gameState != Menu && s.quizItem.Some?
    ensures r.CardScreen? ==>
              && r.score == s.score
              && r.item == s.quizItem.value
              && r.showNext == (s.gameState == ShowingResult)
              && r.buttons == CardButtons(s.quizItem.value, s.selectedAnswer, s.gameState == ShowingResult)
  {
    if ShowsError(s) then ErrorScreen(s.error.value)
    else if s.isLoading then Spinner
    else match s.gameState
      case Menu => MenuScreen
      case Playing | ShowingResult =>
        if s.quizItem.Some? then
          var resultView := s.gameState == ShowingResult;
          CardScreen(s.score, s.quizItem.value,
                     CardButtons(s.quizItem.value, s.selectedAnswer, resultView), resultView)
        else Blank
  }

  /** One answer trigger per clickable answer, in order. */
  function AnswerTriggers(answers: seq<string>): (r: seq<Trigger>)
    ensures |r| == |answers|
    ensures forall i :: 0 <= i < |r| ==> r[i] == AnswerButton(answers[i])
  {
    seq(|answers|, i requires 0 <= i < |answers| => AnswerButton(answers[i]))
  }

  /** The triggers a screen exposes, in the order they are drawn. */
  function Triggers(screen: Screen): (r: seq<Trigger>)
    ensures screen.ErrorScreen? || screen.MenuScreen? ==> r == [StartButton]
    ensures screen.Spinner? || screen.Blank? ==> r == []
    ensures screen.CardScreen? ==>
              var answers := ClickableAnswers(screen.buttons);
              && |r| == |answers| + (if screen.showNext then 1 else 0)
              && (forall i :: 0 <= i < |answers| ==> r[i] == AnswerButton(answers[i]))
              && (screen.showNext ==> r[|answers|] == NextButton)
  {
    match screen
    case ErrorScreen(_) => [StartButton]
    case Spinner => []
    case MenuScreen => [StartButton]
    case CardScreen(_, _, buttons, showNext) =>
      AnswerTriggers(ClickableAnswers(buttons)) + (if showNext then [NextButton] else [])
    case Blank => []
  }

  /** The handler a trigger calls, up to its await if it has one. */
  function Fire(s: State, t: Trigger): (r: State)
    ensures t.StartButton? ==> r.score == 0 && r.isLoading && r.error == None
    ensures t.AnswerButton? ==> r.selectedAnswer == Some(t.answer) && r.gameState == ShowingResult
    ensures t.NextButton? ==> r.score == s.score && r.isLoading && r.error == None
  {
    match t
    case StartButton => StartGame(s)
    case AnswerButton(a) => SelectAnswer(s, a)
    case NextButton => NextQuestion(s)
  }

  /** The answer triggers on screen are exactly the options of the current
      item, and only while it is being played. */
  lemma AnswerTriggerGate(s: State, a: string)
    ensures AnswerButton(a) in Triggers(Render(s)) <==>
              && !ShowsError(s) && !s.isLoading && s.gameState == Playing
              && s.quizItem.Some? && a in s.quizItem.value.options
  {
    var screen := Render(s);
    if screen.CardScreen? {
      var answers := ClickableAnswers(screen.buttons);
      AnswerGate(screen.item, s.selectedAnswer, s.gameState == ShowingResult, a);
      if AnswerButton(a) in AnswerTriggers(answers) {
        var i :| 0 <= i < |answers| && AnswerTriggers(answers)[i] == AnswerButton(a);
        assert answers[i] == a;
      }
      if a in answers {
        var i :| 0 <= i < |answers| && answers[i] == a;
        assert AnswerTriggers(answers)[i] == AnswerButton(a);
      }
    }
  }

  /** The Next button is on screen exactly while a result is shown. */
  lemma NextTriggerGate(s: State)
    ensures NextButton in Triggers(Render(s)) <==>
              !ShowsError(s) && !s.isLoading && s.gameState == ShowingResult && s.quizItem.Some?
  {
  }

  /** The start trigger is on screen exactly on the error screen and on the
      menu; on the error screen it is the only one, and retrying resets the
      score like a fresh start. */
  lemma StartTriggerGate(s: State)
    ensures StartButton in Triggers(Render(s)) <==>
              ShowsError(s) || (!s.isLoading && s.gameState == Menu)
    ensures ShowsError(s) ==> Triggers(Render(s)) == [StartButton] && Fire(s, StartButton).score == 0
  {
  }

  /** Once an answer is selected through the screen, no answer trigger is
      left on the next screen: an answer is taken at most once per loaded
      question. The handler alone would count a second click again. */
  lemma AnswerOnlyOnce(s: State, a: string, b: string)
    requires AnswerButton(a) in Triggers(Render(s))
    ensures AnswerButton(b) !in Triggers(Render(SelectAnswer(s, a)))
    ensures IsCorrect(s, a) ==> SelectAnswer(SelectAnswer(s, a), a).score == s.score + 2
  {
    AnswerTriggerGate(s, a);
    AnswerTriggerGate(SelectAnswer(s, a), b);
  }

  // ---------------------------------------------------------------------
  // Runs: sequences of user clicks and fetch settlements
  // ---------------------------------------------------------------------

  /** An event: the user clicks a trigger, or the pending fetch settles. */
  datatype Event = Click(trigger: Trigger) | Settled(outcome: FetchOutcome)

  /** A click is possible only on a trigger that is on screen; a settlement
      only while a load is pending (loads never overlap). */
  predicate Enabled(s: State, e: Event)
  {
    match e
    case Click(t) => t in Triggers(Render(s))
    case Settled(_) => s.isLoading
  }

  function Apply(s: State, e: Event): State
  {
    match e
    case Click(t) => Fire(s, t)
    case Settled(o) => Settle(s, o)
  }

  /** Every event of `evs` is enabled in the state it happens in. */
  predicate Gated(s: State, evs: seq<Event>)
    decreases |evs|
  {
    evs == [] || (Enabled(s, evs[0]) && Gated(Apply(s, evs[0]), evs[1..]))
  }

  /** The state after all of `evs`. */
  function Run(s: State, evs: seq<Event>): State
    decreases |evs|
  {
    if evs == [] then s else Run(Apply(s, evs[0]), evs[1..])
  }

  /** Whether a click begins a load (start, retry or next). */
  predicate BeginsLoad(e: Event)
  {
    e.Click? && !e.trigger.AnswerButton?
  }

  function AnswerCount(evs: seq<Event>): nat
  {
    if evs == [] then 0
    else (if evs[0].Click? && evs[0].trigger.AnswerButton? then 1 else 0) + AnswerCount(evs[1..])
  }

  /** What holds of every state the screen lets the user reach: a pending
      load shows no error, the score is never negative, an error only
      stands with the menu behind it, and a question is on screen whenever
      the phase is not the menu. */
  predicate Inv(s: State)
  {
    && (s.isLoading ==> s.error == None)
    && s.score >= 0
    && (s.error.Some? ==> s.error == Some(FetchErrorMessage) && s.gameState == Menu)
    && (s.gameState != Menu ==> s.quizItem.Some?)
  }

  lemma InitialInv()
    ensures Inv(Initial)
  {
  }

  /** Every enabled event keeps the invariant. */
  lemma StepInv(s: State, e: Event)
    requires Inv(s) && Enabled(s, e)
    ensures Inv(Apply(s, e))
  {
  }

  /** Every gated run keeps the invariant. */
  lemma {:induction false} RunInv(s: State, evs: seq<Event>)
    requires Inv(s) && Gated(s, evs)
    ensures Inv(Run(s, evs))
    decreases |evs|
  {
    if evs != [] {
      StepInv(s, evs[0]);
      RunInv(Apply(s, evs[0]), evs[1..]);
    }
  }

  /** While a load is pending the spinner hides every trigger. */
  lemma NoTriggerWhileLoading(s: State)
    requires Inv(s) && s.isLoading
    ensures Render(s) == Spinner && Triggers(Render(s)) == []
  {
  }

  /** In a reachable state the screen is never empty. */
  lemma NeverBlank(s: State)
    requires Inv(s)
    ensures Render(s) != Blank
  {
  }

  /** Whether an answer can still come before the next load begins: a
      question is being played, or one is on its way. */
  predicate AnswerPending(s: State)
  {
    s.isLoading || s.gameState == Playing
  }

  /** Between two loads at most one answer is taken, and none once no
      answer is pending. */
  lemma {:induction false} AnswersBetweenLoads(s: State, evs: seq<Event>)
    requires Gated(s, evs)
    requires forall i :: 0 <= i < |evs| ==> !BeginsLoad(evs[i])
    ensures AnswerCount(evs) <= 1
    ensures !AnswerPending(s) ==> AnswerCount(evs) == 0
    decreases |evs|
  {
    if evs != [] {
      var e := evs[0];
      assert !BeginsLoad(evs[0]);
      if e.Click? {
        AnswerTriggerGate(s, e.trigger.answer);
      }
      AnswersBetweenLoads(Apply(s, e), evs[1..]);
    }
  }

  /** Between two loads the score rises by at most one, and not at all once
      no answer is pending. */
  lemma {:induction false} ScoreBetweenLoads(s: State, evs: seq<Event>)
    requires Gated(s, evs)
    requires forall i :: 0 <= i < |evs| ==> !BeginsLoad(evs[i])
    ensures s.score <= Run(s, evs).score <= s.score + 1
    ensures !AnswerPending(s) ==> Run(s, evs).score == s.score
    decreases |evs|
  {
    if evs != [] {
      var e := evs[0];
      assert !BeginsLoad(evs[0]);
      if e.Click? {
        AnswerTriggerGate(s, e.trigger.answer);
      }
      ScoreBetweenLoads(Apply(s, e), evs[1..]);
    }
  }

  /** A load run to completion with no event in between (the spinner
      allows none): on success the new question is playable, with no pick
      and no error, and its answer triggers are exactly its options; on
      failure the menu and the error are back. Either way the score is the
      one the load started with. */
  lemma LoadCompletes(s: State, outcome: FetchOutcome, a: string)
    ensures var r := Settle(Begin(s), outcome);
            && !r.isLoading && r.score == s.score && r.selectedAnswer == None
            && (outcome.Success? ==>
                  && r.error == None && r.gameState == Playing && r.quizItem == Some(outcome.item)
                  && (AnswerButton(a) in Triggers(Render(r)) <==> a in outcome.item.options))
            && (outcome.Failure? ==>
                  r.gameState == Menu && Render(r) == ErrorScreen(FetchErrorMessage)
                  && Triggers(Render(r)) == [StartButton])
  {
    AnswerTriggerGate(Settle(Begin(s), outcome), a);
  }

  /** A session from the start: start, a question arrives, the correct
      option is picked; the score is one and the result is shown with the
      Next button. */
  lemma CorrectPickScenario(item: QuizItem)
    requires item.correctAnswer in item.options
    ensures var evs := [Click(StartButton), Settled(Success(item)), Click(AnswerButton(item.correctAnswer))];
            && Gated(Initial, evs)
            && Run(Initial, evs).score == 1
            && Run(Initial, evs).gameState == ShowingResult
            && Run(Initial, evs).selectedAnswer == Some(item.correctAnswer)
            && Triggers(Render(Run(Initial, evs))) == [NextButton]
  {
    var e1, e2, e3 := Click(StartButton), Settled(Success(item)), Click(AnswerButton(item.correctAnswer));
    var s1 := Apply(Initial, e1);
    var s2 := Apply(s1, e2);
    var s3 := Apply(s2, e3);
    assert Triggers(Render(Initial)) == [StartButton];
    AnswerTriggerGate(s2, item.correctAnswer);
    assert Gated(s3, []) && Run(s3, []) == s3;
    assert Gated(s2, [e3]) && Run(s2, [e3]) == s3;
    assert [e2, e3][1..] == [e3];
    assert Gated(s1, [e2, e3]) && Run(s1, [e2, e3]) == s3;
    assert [e1, e2, e3][1..] == [e2, e3];
    ClickableAnswersAreOptions(item.options, item.correctAnswer, s3.selectedAnswer, true);
    assert Render(s3).buttons == Buttons(item.options, item.correctAnswer, s3.selectedAnswer, true);
  }

  /** A failed fetch after a good one: the score earned stays until the
      user retries, and retrying resets it. */
  lemma FailureThenRetryScenario(s: State)
    requires Inv(s) && !s.isLoading && s.gameState == ShowingResult
    ensures var evs := [Click(NextButton), Settled(Failure)];
            && Gated(s, evs)
            && Run(s, evs).score == s.score
            && Render(Run(s, evs)) == ErrorScreen(FetchErrorMessage)
            && StartGame(Run(s, evs)).score == 0
  {
  }

  // ---------------------------------------------------------------------
  // The component's state, updated in place by its handlers
  // ---------------------------------------------------------------------

  /** The six state fields of the `App` component and its handlers. Each
      `set...` call of the source is one field assignment here. */
  class Session {
    var gameState: GameState
    var quizItem: Option<QuizItem>
    var isLoading: bool
    var error: Option<string>
    var score: int
    var selectedAnswer: Option<string>

    function Snapshot(): State
      reads this
    {
      State(gameState, quizItem, isLoading, error, score, selectedAnswer)
    }

    constructor ()
      ensures Snapshot() == Initial
    {
      gameState := Menu;
      quizItem := None;
      isLoading := false;
      error := None;
      score := 0;
      selectedAnswer := None;
    }

    /** `loadNewQuestion` before the await. */
    method BeginLoad()
      modifies this
      ensures Snapshot() == Begin(old(Snapshot()))
      ensures isLoading && error == None && selectedAnswer == None
    {
      isLoading := true;
      error := None;
      selectedAnswer := None;
    }

    /** `loadNewQuestion` after the await: try/catch, then finally. */
    method SettleLoad(outcome: FetchOutcome)
      modifies this
      ensures Snapshot() == Settle(old(Snapshot()), outcome)
      ensures !isLoading && score == old(score)
    {
      match outcome {
        case Success(item) =>
          quizItem := Some(item);
          gameState := Playing;
        case Failure =>
          error := Some(FetchErrorMessage);
          gameState := Menu;
      }
      isLoading := false;
    }

    method HandleStartGame()
      modifies this
      ensures Snapshot() == StartGame(old(Snapshot()))
      ensures score == 0 && isLoading
    {
      score := 0;
      BeginLoad();
    }

    method HandleAnswerSelect(answer: string)
      modifies this
      ensures Snapshot() == SelectAnswer(old(Snapshot()), answer)
      ensures score == old(score) + (if IsCorrect(old(Snapshot()), answer) then 1 else 0)
    {
      selectedAnswer := Some(answer);
      if quizItem.Some? && answer == quizItem.value.correctAnswer {
        score := score + 1;
      }
      gameState := ShowingResult;
    }

    method HandleNextQuestion()
      modifies this
      ensures Snapshot() == NextQuestion(old(Snapshot()))
      ensures score == old(score) && isLoading
    {
      BeginLoad();
    }
  }
}
