/** The question card (components/QuestionCard.tsx): one button per answer
    option, styled according to the correct answer and the user's pick, and
    disabled while the result is shown. */
module QuestionCard {
  import opened Types

  /** The four looks an option button can take; the source encodes them as
      CSS class strings. */
  datatype ButtonStyle =
    | Neutral    // not yet answered: every option looks alike
    | Correct    // the correct answer, revealed
    | WrongPick  // the user's pick, when it is wrong
    | Dimmed     // any other option once the result is shown

  /** A rendered option button: its label (also what a click reports), its
      style, and whether it can be clicked. */
  datatype Button = Button(option: string, style: ButtonStyle, enabled: bool)

  /** `getButtonClass`: the style of one option. `selectedAnswer` is the
      nullable pick; an option (a string) never equals `null`. */
  function StyleOf(option: string, correctAnswer: string, selectedAnswer: Option<string>,
                   isResultView: bool): (r: ButtonStyle)
    ensures r == Neutral <==> !isResultView
    ensures r == Correct <==> isResultView && option == correctAnswer
    ensures r == WrongPick <==> isResultView && option != correctAnswer && selectedAnswer == Some(option)
    ensures r == Dimmed <==> isResultView && option != correctAnswer && selectedAnswer != Some(option)
  {
    if !isResultView then Neutral
    else
      var isCorrectAnswer := option == correctAnswer;
      var isSelectedAnswer := selectedAnswer == Some(option);
      if isCorrectAnswer then Correct
      else if isSelectedAnswer && !isCorrectAnswer then WrongPick
      else Dimmed
  }

  /** The buttons `options.map(...)` renders, in order: each one is labelled
      with its option, styled by `StyleOf`, and enabled exactly when the
      card is not in result view. */
  function Buttons(options: seq<string>, correctAnswer: string, selectedAnswer: Option<string>,
                   isResultView: bool): (r: seq<Button>)
    ensures |r| == |options|
    ensures forall i :: 0 <= i < |r| ==>
              && r[i].option == options[i]
              && r[i].enabled == !isResultView
              && r[i].style == StyleOf(options[i], correctAnswer, selectedAnswer, isResultView)
  {
    if options == [] then []
    else
      [Button(options[0], StyleOf(options[0], correctAnswer, selectedAnswer, isResultView), !isResultView)]
      + Buttons(options[1..], correctAnswer, selectedAnswer, isResultView)
  }

  /** The card rendered for a quiz item. */
  function CardButtons(item: QuizItem, selectedAnswer: Option<string>, isResultView: bool): seq<Button>
  {
    Buttons(item.options, item.correctAnswer, selectedAnswer, isResultView)
  }

  /** The answers a user can report by clicking, in rendered order: the
      labels of the enabled buttons (a disabled button fires no click). */
  function ClickableAnswers(buttons: seq<Button>): (r: seq<string>)
    ensures |r| <= |buttons|
    ensures (forall i :: 0 <= i < |buttons| ==> !buttons[i].enabled) ==> r == []
  {
    if buttons == [] then []
    else (if buttons[0].enabled then [buttons[0].option] else []) + ClickableAnswers(buttons[1..])
  }

  /** Clicking reports the option text unchanged: outside result view the
      clickable answers are exactly the item's options in their order, and
      in result view there is none. */
  lemma {:induction false} ClickableAnswersAreOptions(options: seq<string>, correctAnswer: string,
                                                      selectedAnswer: Option<string>, isResultView: bool)
    ensures ClickableAnswers(Buttons(options, correctAnswer, selectedAnswer, isResultView))
            == if isResultView then [] else options
  {
    if options != [] {
      var b := Button(options[0], StyleOf(options[0], correctAnswer, selectedAnswer, isResultView), !isResultView);
      var rest := Buttons(options[1..], correctAnswer, selectedAnswer, isResultView);
      ClickableAnswersAreOptions(options[1..], correctAnswer, selectedAnswer, isResultView);
      ClickableAnswersCons(b, rest);
      if !isResultView {
        assert options == [options[0]] + options[1..];
      }
    }
  }

  /** Unfolds `ClickableAnswers` over a first button and the rest. */
  lemma ClickableAnswersCons(b: Button, rest: seq<Button>)
    ensures ClickableAnswers([b] + rest) == (if b.enabled then [b.option] else []) + ClickableAnswers(rest)
  {
    assert ([b] + rest)[1..] == rest;
  }



  /** The answer gate: `onAnswerSelect(a)` can fire exactly when the card is
      not in result view and `a` is one of the item's options. */
  lemma AnswerGate(item: QuizItem, selectedAnswer: Option<string>, isResultView: bool, a: string)
    ensures a in ClickableAnswers(CardButtons(item, selectedAnswer, isResultView))
            <==> !isResultView && a in item.options
  {
    ClickableAnswersAreOptions(item.options, item.correctAnswer, selectedAnswer, isResultView);
  }

  /** Before the result is shown every option looks the same, whatever the
      correct answer and the pick are. */
  lemma UniformBeforeResult(item: QuizItem, selectedAnswer: Option<string>)
    ensures forall b :: b in CardButtons(item, selectedAnswer, false) ==> b.style == Neutral && b.enabled
  {
  }

  /** In result view, a button is green exactly when its option is the
      correct answer, also when it is the user's pick. So when the item's
      options do not contain `correctAnswer` (nothing rules this out) no
      button is green at all. */
  lemma CorrectHighlight(item: QuizItem, selectedAnswer: Option<string>)
    ensures forall i :: 0 <= i < |item.options| ==>
              (CardButtons(item, selectedAnswer, true)[i].style == Correct
               <==> item.options[i] == item.correctAnswer)
    ensures item.correctAnswer !in item.options ==>
              forall b :: b in CardButtons(item, selectedAnswer, true) ==> b.style != Correct
  {
  }

  /** In result view a wrong pick that is among the options is shown red,
      and no button other than one labelled with the pick is ever red. */
  lemma {:induction false} WrongPickHighlight(item: QuizItem, pick: string)
    requires pick != item.correctAnswer
    ensures pick in item.options ==>
              exists b :: b in CardButtons(item, Some(pick), true) && b.option == pick && b.style == WrongPick
    ensures forall b :: b in CardButtons(item, Some(pick), true) && b.style == WrongPick ==> b.option == pick
  {
    var bs := CardButtons(item, Some(pick), true);
    if pick in item.options {
      var i :| 0 <= i < |item.options| && item.options[i] == pick;
      assert bs[i] in bs && bs[i].option == pick && bs[i].style == WrongPick;
    }
  }
}
