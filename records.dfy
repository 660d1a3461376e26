/** The plain records around the flashcards: `Deck`, `ChatMessage`, the two
    generative-service reply shapes, and the exceptions the core throws. */
module Records {
  import opened Primitives

  /** `domain/model/Deck.kt` (the copy in `domain/Deck.kt` is identical). */
  datatype Deck = Deck(
    id: string := "",
    name: string := "",
    description: string := "",
    userId: string := "",
    cardCount: Int32 := 0)

  /** `domain/model/ChatMessage.kt`. The timestamp default is the clock's reading, so
      it is always given here. */
  datatype ChatMessage = ChatMessage(
    id: string := "",
    sender: string := "USER",
    text: string := "",
    timestamp: Int64)

  /** The verdict the generative service returns for a typed answer. */
  datatype ValidateAnswerResponse = ValidateAnswerResponse(isCorrect: bool, score: Int32, explanation: string)

  /** The review date the generative service returns, as "YYYY-MM-DD" text. */
  datatype RecommendationDTOs = RecommendationDTOs(proximaDataRevisao: string)

  /** The exceptions of the core, by class, with their messages. */
  datatype Error =
    | Failed(message: string)                  // kotlin.Exception(message)
    | IllegalArgument(message: string)         // IllegalArgumentException, requireNotNull
    | UnsupportedOperation(message: string)    // UnsupportedOperationException
    | Wrapped(message: string, cause: string)  // Exception(message, cause)
    | ServiceError(message: string)            // a failure raised by the generative service
    | DateParseError(text: string)             // DateTimeParseException on the reply's date
}
