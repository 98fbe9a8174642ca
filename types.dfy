/** Value types shared by the session controller and the question card (types.ts). */
module Types {

  /** A nullable value: `T | null` in the source. */
  datatype Option<+T> = None | Some(value: T)

  /** One question with its answer options and illustration (types.ts:2-7).
      Nothing here forces `options` to have three elements or to contain
      `correctAnswer`: the fetch that builds it checks neither. */
  datatype QuizItem = QuizItem(
    question: string,
    options: seq<string>,
    correctAnswer: string,
    imageUrl: string)

  /** The coarse phase of a session (types.ts:9-13). */
  datatype GameState = Menu | Playing | ShowingResult

  /** What the awaited fetch of a new question ends with: the item it
      produced, or a rejection whose cause the controller never looks at. */
  datatype FetchOutcome = Success(item: QuizItem) | Failure
}
