# Flashcard study back end, modelled in Dafny

This project models the domain core of a flashcard study service written in Kotlin.
Users own decks. A deck holds flashcards of four shapes:

- front/back (`FRENTE_VERSO`);
- cloze (`CLOZE`);
- typed answer (`DIGITE_RESPOSTA`);
- multiple choice (`MULTIPLA_ESCOLHA`).

The service also keeps one chat log per user. Everything is stored in a Firebase
realtime database. The parts that talk to a generative language model are stand-ins or
prompt builders.

The model covers the following.

- **The card model** (`FlashCards`). The sealed `Flashcard` class is a datatype with four
  constructors. Each carries nullable fields with their declared defaults. The model
  splits a card into its identity, its spaced-repetition bookkeeping and its
  variant-specific payload, and proves that every variant carries the same shared
  fields.
- **The store** (`Store`). The database is one `Database` class holding three maps:
  - decks under `decks/userId/deckId`;
  - raw flashcard records under `flashcards/deckId/flashcardId`;
  - an ordered chat log per user.

  It also holds the partial deck updates issued.
  Fresh push keys and UUIDs come from `FreshKey`, which returns a key that is not yet in
  use. A node's children are listed in an order the store chooses.
- **The three repositories**:
  - `FlashcardRepository`: the snapshot decoder `toFlashcard`, `findById`, the
    ownership-gated `findAllByDeckId`, `create` and the `saveAll` batch;
  - `DeckRepository`: `findByUserId`, `create`, `findById`, and the interface's
    `update`;
  - `ChatRepository`: `getLatestMessages` (`limitToLast` on a key-ordered log) and
    `addMessage`.
- **The four use cases**:
  - `GenerateFlashcard`: the context summary and the dispatch on the requested type;
  - `ValidateAnswer`: the dispatch on the card's variant, the grading prompt and the
    error wrapping;
  - `SpacedRepetition`: the empty-deck no-op, the performance summary, the planning
    prompt, and the single partial update of the deck;
  - `ProcessChat`: store the user's message, read the last ten, store the fixed reply.
- **Text** (`Text`). These are the Kotlin string operations the prompts are built with:
  `joinToString`, `split`, `lines`, `trimIndent`, `take`, `uppercase`, and the rendering
  of numbers and nulls in templates. `trimIndent` follows the Kotlin library:
  - it cuts lines at CRLF, LF and CR;
  - it removes the smallest indentation of the non-blank lines;
  - it drops a blank first line and a blank last line.

The generative service is a function parameter that returns a `Result`. So are:

- the conversion of a `YYYY-MM-DD` date to the epoch millisecond of its start;
- today's date;
- the clock reading that stamps a chat reply.

Three things the code does are visible in the proofs:

- The decoder reads none of the stored bookkeeping keys. So every card the repository
  returns has the default bookkeeping. The scheduling summary therefore reports every
  card as never reviewed, with easiness 2.5 (`SpacedRepetition.ListedCardsHaveNoHistory`).
- The performance summary is interpolated into an indented raw string before
  `trimIndent`. When a deck has two cards or more, the summary's second line has no
  indentation. So `trimIndent` removes nothing, and the whole planning prompt keeps
  its 12 leading spaces (`SpacedRepetition.SummaryQuoted`).
- The `Flashcard` class declares no `type` property, but the decoder needs a `"type"`
  key. A card saved as a record of its declared properties is not found again
  (`FlashcardRepository.UntaggedSavedCardsAreLost`, listed under Findings).

`ValidateFlashcardAnswerUseCase.kt` names the rejected card by `flashcard.type`.
`FlashCards.kt` no longer declares that property. The model uses the variant's serial
name instead, the same text the discriminator carries.

## Model

| member | source | states |
|---|---|---|
| FlashCards.ParseSerialName | src/main/kotlin/domain/model/FlashCards.kt:20-68 | reading a discriminator gives the variant carrying exactly that serial name; text that is no serial name gives no variant |
| FlashCards.TagDeterminesVariant | src/main/kotlin/domain/model/FlashCards.kt:20-68 | the four serial names are pairwise distinct, so two cards have the same discriminator iff they are the same variant; each discriminator reads back as its own variant |
| FlashCards.PayloadOf | src/main/kotlin/domain/model/FlashCards.kt:23-79 | a card's variant-specific fields belong to the card's own variant |
| FlashCards.Assemble | src/main/kotlin/domain/model/FlashCards.kt:9-18 | every variant takes the same shared fields (identity and the four bookkeeping fields), and the identity, bookkeeping and payload it is built from are read back unchanged |
| FlashCards.Decompose | src/main/kotlin/domain/model/FlashCards.kt:9-79 | a card is nothing but its identity, its bookkeeping and its payload: reassembling them gives the card back |
| FlashCards.WithIdentity | src/main/kotlin/domain/model/FlashCards.kt:23-79 | `copy(id, deckId, userId)` sets exactly the identity and leaves the variant, bookkeeping and payload unchanged |
| FlashCards.DefaultPayload | src/main/kotlin/domain/model/FlashCards.kt:31-78 | each variant's argument-free payload belongs to that variant |
| FlashCards.Blank | src/main/kotlin/domain/model/FlashCards.kt:23-79 | a card built without arguments has the variant asked for, empty identity strings, the default bookkeeping (2.5, 0, 1, 0) and the declared empty payload |
| FlashCards.BookkeepingDefaults | src/main/kotlin/domain/model/FlashCards.kt:27-86 | a card of any variant built without bookkeeping arguments has fatorFacilidade 2.5, repeticoes 0, intervaloEmDias 1, proximaRevisaoTimestamp 0; a default `Alternativa` has an empty text and is not correct |
| Store.FreshKey | src/main/kotlin/infrastructure/persistence/FirebaseFlashcardRepository.kt:133 | a new key (push key or random UUID) is none of the keys already in use |
| Store.Children | src/main/kotlin/infrastructure/persistence/FireBaseDeckRepository.kt:27-29 | a node's children are listed as every key of the node, each exactly once |
| Store.ChildValuesListEveryChild | src/main/kotlin/infrastructure/persistence/FirebaseFlashcardRepository.kt:120 | read along a full listing of a node's keys, the children's values are as many as the node's children, and a value is listed iff the node holds it |
| FlashcardRepository.AsString | src/main/kotlin/infrastructure/persistence/FirebaseFlashcardRepository.kt:31-35 | `as? String` yields the text exactly when the value is a string, and null otherwise |
| FlashcardRepository.AsBool | src/main/kotlin/infrastructure/persistence/FirebaseFlashcardRepository.kt:56 | `as? Boolean` yields the flag exactly when the value is a boolean, and null otherwise |
| FlashcardRepository.AsStringMap | src/main/kotlin/infrastructure/persistence/FirebaseFlashcardRepository.kt:42 | a decoded answer map has the stored map's keys and, under each, the stored string |
| FlashcardRepository.AsStringList | src/main/kotlin/infrastructure/persistence/FirebaseFlashcardRepository.kt:49 | a decoded answer list has the stored list's length and, at each position, the stored string |
| FlashcardRepository.DecodeAlternativas | src/main/kotlin/infrastructure/persistence/FirebaseFlashcardRepository.kt:52-58 | the alternatives decode iff every element is a map; they are then decoded element by element, keeping length and order |
| FlashcardRepository.ToFlashcard | src/main/kotlin/infrastructure/persistence/FirebaseFlashcardRepository.kt:24-74 | a non-map value or an unknown or missing `"type"` decodes to null; a decoded card is of the variant its `"type"` names; every known tag except multiple choice always decodes, and a multiple-choice record decodes iff its `"alternativas"` is not a list or every element of the list is a map; the identity is read from `"id"`, `"deckId"` and `"userId"`; the bookkeeping is always the default |
| FlashcardRepository.DecodedPayload | src/main/kotlin/infrastructure/persistence/FirebaseFlashcardRepository.kt:30-66 | each decoded payload field is the value stored under the field's own name, read with a safe cast; absent `alternativas` decode to null |
| FlashcardRepository.BadAlternativeRejectsCard | src/main/kotlin/infrastructure/persistence/FirebaseFlashcardRepository.kt:51-73 | a multiple-choice record with any non-map alternative is not decoded at all: the failed cast is caught and yields null |
| FlashcardRepository.AlternativaRecordReads | src/main/kotlin/infrastructure/persistence/FirebaseFlashcardRepository.kt:53-57 | an alternative's record decodes back to that alternative |
| FlashcardRepository.DecodeAlternativaRecords | src/main/kotlin/infrastructure/persistence/FirebaseFlashcardRepository.kt:52-58 | a list of alternative records decodes back to the alternatives, in order |
| FlashcardRepository.DecodeRecordOf | src/main/kotlin/infrastructure/persistence/FirebaseFlashcardRepository.kt:24-74 | a stored card record decodes to the card with its variant, identity and payload, but with the default bookkeeping whatever was stored |
| FlashcardRepository.UnknownTagRejected | src/main/kotlin/infrastructure/persistence/FirebaseFlashcardRepository.kt:29-68 | a record whose `"type"` is none of the four tags decodes to null, never to some default variant |
| FlashcardRepository.DecodeAll | src/main/kotlin/infrastructure/persistence/FirebaseFlashcardRepository.kt:120 | `mapNotNull`: the result is no longer than the input, holds every decodable child's card and nothing that is not one, and all of it has the default bookkeeping |
| FlashcardRepository.DecodeAllAppend | src/main/kotlin/infrastructure/persistence/FirebaseFlashcardRepository.kt:120 | decoding keeps the children's order: decoding two lists one after the other gives the two decodings one after the other |
| FlashcardRepository.FindById | src/main/kotlin/infrastructure/persistence/FirebaseFlashcardRepository.kt:79-91 | when a record exists at `flashcards/deckId/flashcardId` the result is that record decoded, and when none exists it is null; so a card is found iff a record exists there and decodes; a found card has the default bookkeeping |
| FlashcardRepository.FindAllByDeckId | src/main/kotlin/infrastructure/persistence/FirebaseFlashcardRepository.kt:93-128 | nothing for a caller who does not hold `decks/userId/deckId`, or when the deck has no card node; otherwise the decodable children of `flashcards/deckId` in the store's order; never more cards than children |
| FlashcardRepository.Create | src/main/kotlin/infrastructure/persistence/FirebaseFlashcardRepository.kt:130-146 | the card gets a fresh id not used in its deck and the given deckId and userId; variant, payload and bookkeeping are unchanged; nothing is written |
| FlashcardRepository.LastAt | src/main/kotlin/infrastructure/persistence/FirebaseFlashcardRepository.kt:154-159 | finds the last card in the list filed under an update path, and no later card is filed there |
| FlashcardRepository.BatchOfSpec | src/main/kotlin/infrastructure/persistence/FirebaseFlashcardRepository.kt:148-160 | the batch fails iff some card lacks a deckId or an id, with the message for the first such card; otherwise it has one entry per distinct update path (the text `/flashcards/deckId/flashcardId`), holding the last card filed under it |
| FlashcardRepository.BatchOfFailureStays | src/main/kotlin/infrastructure/persistence/FirebaseFlashcardRepository.kt:154-156 | once a card fails `requireNotNull`, the later cards do not matter |
| FlashcardRepository.BuildBatch | src/main/kotlin/infrastructure/persistence/FirebaseFlashcardRepository.kt:153-160 | the `forEach` loop builds exactly the batch described by `BatchOfSpec`, or stops at the first card without a path |
| FlashcardRepository.BatchWellKeyed | src/main/kotlin/infrastructure/persistence/FirebaseFlashcardRepository.kt:158-159 | every entry of a built batch is the card whose own update path is its key |
| FlashcardRepository.SlashedIdsShareAnEntry | src/main/kotlin/infrastructure/persistence/FirebaseFlashcardRepository.kt:158-159 | cards {deckId "d/x", id "1"} and {deckId "d", id "x/1"} have different ids but one update path, so the batch keeps only the later one |
| FlashcardRepository.WrittenIds | src/main/kotlin/infrastructure/persistence/FirebaseFlashcardRepository.kt:172 | an id is written under a deck iff the batch holds a card with that deck id and that id |
| FlashcardRepository.ApplyBatch | src/main/kotlin/infrastructure/persistence/FirebaseFlashcardRepository.kt:172 | after `updateChildren`, every card of the batch is stored, as the encoder writes it, at its own deck id and card id; every other record is present iff it was before, and unchanged |
| FlashcardRepository.BatchCardsAreWritten | src/main/kotlin/infrastructure/persistence/FirebaseFlashcardRepository.kt:158-172 | no card of the batch is lost: each is written at its own deck id and card id |
| FlashcardRepository.SavedCardReadsBack | src/main/kotlin/infrastructure/persistence/FirebaseFlashcardRepository.kt:79-91 | with the record layout `RecordOf`, a saved card read back by `findById` is the card with its variant, identity and payload, and the default bookkeeping |
| FlashcardRepository.PropertyRecordUnreadable | src/main/kotlin/infrastructure/persistence/FirebaseFlashcardRepository.kt:29-68 | a card's record without the `"type"` key decodes to null |
| FlashcardRepository.UntaggedSavedCardsAreLost | src/main/kotlin/infrastructure/persistence/FirebaseFlashcardRepository.kt:158-172 | if a card is saved as a record of its declared properties, which carries no `"type"`, `findById` at the card's own deck id and card id returns null |
| FlashcardRepository.SaveAll | src/main/kotlin/infrastructure/persistence/FirebaseFlashcardRepository.kt:148-174 | an empty list writes nothing; a card without a deckId or id fails with its message and nothing is written; otherwise the flashcard records become the batch applied by `ApplyBatch`; decks, chats and deck updates are unchanged |
| DeckRepository.FindById | src/main/kotlin/infrastructure/persistence/FireBaseDeckRepository.kt:50-64 | a deck is found iff it is stored under the caller's key, and is then stored there under its own id |
| DeckRepository.FindByIdOwnerOnly | src/main/kotlin/infrastructure/persistence/FireBaseDeckRepository.kt:50-57 | a deck is found under its holder's key and not under another user's, even though it exists |
| DeckRepository.FindByUserId | src/main/kotlin/infrastructure/persistence/FireBaseDeckRepository.kt:21-38 | returns exactly the decks stored under the user, one per child, in the store's order |
| DeckRepository.Create | src/main/kotlin/infrastructure/persistence/FireBaseDeckRepository.kt:40-48 | the deck comes back with only its id replaced by a fresh key, and its userId field is kept as given; it is stored under the caller's key and found there afterwards; no other user's decks change |
| DeckRepository.Update | src/main/kotlin/domain/repositories/DeckRepository.kt:10 | one partial update of the deck is issued, and the stored decks, cards and chats are unchanged |
| ChatRepository.Latest | src/main/kotlin/infrastructure/persistence/FirebaseChatRepository.kt:18-19 | `limitToLast(n)` on the key-ordered log: at most n messages, all of them if there are fewer, and they are the log's last messages in order |
| ChatRepository.LatestAfterAppend | src/main/kotlin/infrastructure/persistence/FirebaseChatRepository.kt:18-19 | after one more message, the last n messages are the last n-1 from before, then the new one |
| ChatRepository.GetLatestMessages | src/main/kotlin/infrastructure/persistence/FirebaseChatRepository.kt:16-34 | a limit below 1 is refused, and only such a limit is; otherwise at most `limit` messages, exactly `limit` when the log is long enough, being the end of the user's log in key order; reading changes nothing |
| ChatRepository.AddMessage | src/main/kotlin/infrastructure/persistence/FirebaseChatRepository.kt:36-45 | the user's log grows by the message with a fresh key as its id and sender, text and timestamp unchanged; every other user's log and the rest of the store are unchanged; ids stay distinct |
| GenerateFlashcard.ContextLine | src/main/kotlin/domain/usecases/GenerateFlashcardUseCase.kt:27-32 | a card is quoted by its own main text: the front of a front/back card, the question of a typed-answer or multiple-choice card, the gapped text of a cloze card |
| GenerateFlashcard.ContextLineOnOneLine | src/main/kotlin/domain/usecases/GenerateFlashcardUseCase.kt:27-32 | a card whose quoted text has no line feed is quoted on one line |
| GenerateFlashcard.Quoted | src/main/kotlin/domain/usecases/GenerateFlashcardUseCase.kt:26 | `take(5)`: a prefix of the deck's cards of at most five, all of them when there are at most five |
| GenerateFlashcard.ContextLines | src/main/kotlin/domain/usecases/GenerateFlashcardUseCase.kt:26-33 | one context line per quoted card, in order |
| GenerateFlashcard.CardsContext | src/main/kotlin/domain/usecases/GenerateFlashcardUseCase.kt:24-36 | an empty deck gives the fixed first-card sentence; otherwise the context starts with the heading line |
| GenerateFlashcard.CardsContextLines | src/main/kotlin/domain/usecases/GenerateFlashcardUseCase.kt:24-36 | for cards quoted on one line, the context splits into the heading and one line per quoted card, in deck order: min(number of cards, 5) lines after the heading |
| GenerateFlashcard.GeneratedVerso | src/main/kotlin/domain/usecases/GenerateFlashcardUseCase.kt:50 | the generated back contains the user's comment, or "genérico" without one |
| GenerateFlashcard.GenerateCard | src/main/kotlin/domain/usecases/GenerateFlashcardUseCase.kt:43-68 | succeeds iff the upper-cased type is `FRENTE_VERSO` or `MULTIPLA_ESCOLHA`, with a card of that variant; otherwise the unsupported-type error quoting the type as given; the card has the new id, the deck and user, and the default bookkeeping |
| GenerateFlashcard.GenerateCardIgnoresCase | src/main/kotlin/domain/usecases/GenerateFlashcardUseCase.kt:44 | two spellings that upper-case alike generate the same card or are both refused; upper-casing the type first changes nothing |
| GenerateFlashcard.OnlyTwoShapesGenerated | src/main/kotlin/domain/usecases/GenerateFlashcardUseCase.kt:44-67 | cloze and typed-answer requests are refused |
| GenerateFlashcard.GeneratedFrenteVersoQuotesComment | src/main/kotlin/domain/usecases/GenerateFlashcardUseCase.kt:45-51 | a front/back request gives the fixed front and a back quoting the comment, or "genérico" |
| GenerateFlashcard.GeneratedMultiplaEscolhaShape | src/main/kotlin/domain/usecases/GenerateFlashcardUseCase.kt:53-64 | a multiple-choice request gives three alternatives; the right answer is the text of the second and of no other; no alternative is flagged correct |
| GenerateFlashcard.Execute | src/main/kotlin/domain/usecases/GenerateFlashcardUseCase.kt:17-69 | a deck the caller does not hold is refused; otherwise the context is built from the caller's listing of the deck and the result is the generated card; nothing is written |
| ValidateAnswer.GradingTemplate | src/main/kotlin/domain/usecases/ValidateFlashcardAnswerUseCase.kt:25-35 | the raw prompt literal has eleven lines, the first and last blank |
| ValidateAnswer.QuestionQuoted | src/main/kotlin/domain/usecases/ValidateFlashcardAnswerUseCase.kt:27 | a single-line question survives `trimIndent` whole, on its quoted line |
| ValidateAnswer.AnswersQuoted | src/main/kotlin/domain/usecases/ValidateFlashcardAnswerUseCase.kt:28 | single-line accepted answers survive `trimIndent` whole, on their quoted line |
| ValidateAnswer.StudentAnswerQuoted | src/main/kotlin/domain/usecases/ValidateFlashcardAnswerUseCase.kt:29 | a single-line student answer survives `trimIndent` whole, on its quoted line |
| ValidateAnswer.GradingPromptQuotes | src/main/kotlin/domain/usecases/ValidateFlashcardAnswerUseCase.kt:25-35 | the prompt contains the question, the accepted answers and the student's answer verbatim, each on its quoted line |
| ValidateAnswer.Graded | src/main/kotlin/domain/usecases/ValidateFlashcardAnswerUseCase.kt:37-41 | the service's verdict is returned unchanged; its failure is rethrown wrapped, keeping the cause |
| ValidateAnswer.Execute | src/main/kotlin/domain/usecases/ValidateFlashcardAnswerUseCase.kt:15-48 | a missing card fails with "not found"; a card of another variant is refused as unsupported, naming its type; a typed-answer card gets the service's verdict on the prompt built from its question (or "Pergunta não encontrada") and its answers joined with ", " (none when null) |
| ValidateAnswer.OnlyTypedAnswersAreGraded | src/main/kotlin/domain/usecases/ValidateFlashcardAnswerUseCase.kt:19-46 | for a missing card or any variant other than typed answer, the outcome is a failure and does not depend on the service |
| ValidateAnswer.PromptQuotesCard | src/main/kotlin/domain/usecases/ValidateFlashcardAnswerUseCase.kt:22-35 | the grading prompt of a typed-answer card contains its question, each accepted answer and the student's answer |
| SpacedRepetition.ShortId | src/main/kotlin/domain/usecases/CalculateSpacedRepetitionUseCase.kt:29 | `id?.take(5)`: the first five characters of the id, or all of them if fewer; "null" without an id |
| SpacedRepetition.SummaryLines | src/main/kotlin/domain/usecases/CalculateSpacedRepetitionUseCase.kt:28-30 | one summary line per card, in the listing's order |
| SpacedRepetition.SummaryLineOnOneLine | src/main/kotlin/domain/usecases/CalculateSpacedRepetitionUseCase.kt:29 | a card whose id is on one line is summarised on one line, starting with the list dash |
| SpacedRepetition.SummaryLinesOnOneLine | src/main/kotlin/domain/usecases/CalculateSpacedRepetitionUseCase.kt:28-30 | every summary line is a single line that starts with no whitespace |
| SpacedRepetition.DefaultBookkeepingLine | src/main/kotlin/domain/usecases/CalculateSpacedRepetitionUseCase.kt:29 | a card with default bookkeeping is summarised with 0 reviews and factor 2.5 |
| SpacedRepetition.ListedCardsHaveNoHistory | src/main/kotlin/domain/usecases/CalculateSpacedRepetitionUseCase.kt:20-30 | every card the repository lists is summarised as never reviewed, with factor 2.5, whatever bookkeeping was stored |
| SpacedRepetition.PlanningTemplate | src/main/kotlin/domain/usecases/CalculateSpacedRepetitionUseCase.kt:52-72 | the raw prompt literal has 21 lines |
| SpacedRepetition.TodayQuoted | src/main/kotlin/domain/usecases/CalculateSpacedRepetitionUseCase.kt:57 | today's date line survives `trimIndent` whole |
| SpacedRepetition.DeckNameQuoted | src/main/kotlin/domain/usecases/CalculateSpacedRepetitionUseCase.kt:58 | the quoted deck-name line survives `trimIndent` whole |
| SpacedRepetition.SummaryQuoted | src/main/kotlin/domain/usecases/CalculateSpacedRepetitionUseCase.kt:59-72 | `trimIndent` cuts at most the literal's 12 spaces, and nothing once the summary has two lines; the whole summary is found in the prompt |
| SpacedRepetition.PromptQuotesDeck | src/main/kotlin/domain/usecases/CalculateSpacedRepetitionUseCase.kt:49-72 | the prompt contains the date line, the deck-name line, the whole summary and each card's line |
| SpacedRepetition.Recommendation | src/main/kotlin/domain/usecases/CalculateSpacedRepetitionUseCase.kt:22-41 | nothing is decided iff the deck has no cards; otherwise the service's date as the start-of-day timestamp, or the service's failure, or the failure to read its date |
| SpacedRepetition.CardsAlwaysGetADate | src/main/kotlin/domain/usecases/CalculateSpacedRepetitionUseCase.kt:22-41 | a deck with cards either fails or gets a timestamp, and it is the one converted from the service's date |
| SpacedRepetition.NextReviewUpdate | src/main/kotlin/domain/usecases/CalculateSpacedRepetitionUseCase.kt:43 | the update map has the single key `proximaRevisaoTimestamp`, holding the timestamp |
| SpacedRepetition.Execute | src/main/kotlin/domain/usecases/CalculateSpacedRepetitionUseCase.kt:16-47 | a deck the caller does not hold fails with no update; a deck without cards issues no update; a failure of the service or of the date issues none; on success exactly one partial update for (deckId, userId); nothing else changes |
| ProcessChat.HistoryLines | src/main/kotlin/domain/usecases/ProcessChatResponseUseCase.kt:19 | one "sender: text" line per message, in history order |
| ProcessChat.ChatPromptLines | src/main/kotlin/domain/usecases/ProcessChatResponseUseCase.kt:19-20 | for single-line messages, the prompt splits into the header, one line per message in order, an empty line and the closing request |
| ProcessChat.PromptEndsWithMessage | src/main/kotlin/domain/usecases/ProcessChatResponseUseCase.kt:13-20 | since the user's message is stored before the history is read, the prompt quotes it last, right before the closing request |
| ProcessChat.IdsOfAppend | src/main/kotlin/domain/usecases/ProcessChatResponseUseCase.kt:13 | storing a message adds exactly its id to the log's ids |
| ProcessChat.Execute | src/main/kotlin/domain/usecases/ProcessChatResponseUseCase.kt:10-40 | the user's log grows by exactly two messages under distinct fresh keys: the user's message, then an "LLM" reply with the fixed text; the prompt is built from the last ten messages once the user's is stored; other users and the rest of the store are unchanged; no failure escapes |
| ProcessChat.GetChatMessages | src/main/kotlin/domain/usecases/ProcessChatResponseUseCase.kt:42-48 | reading the latest messages leaves the chats, decks, flashcards and deck updates unchanged |
| Text.Take | src/main/kotlin/domain/usecases/CalculateSpacedRepetitionUseCase.kt:29 | `take(n)` is the prefix of length min(n, length) |
| Text.Show | src/main/kotlin/domain/usecases/GenerateFlashcardUseCase.kt:28-31 | a non-null string is rendered as itself in a template, and null as the four letters "null" |
| Text.IntToString | src/main/kotlin/domain/usecases/CalculateSpacedRepetitionUseCase.kt:29 | an integer is rendered as its decimal digits, with a minus sign when negative, on one line |
| Text.NatToStringValue | src/main/kotlin/domain/usecases/CalculateSpacedRepetitionUseCase.kt:29 | the rendered digits read back as the number |
| Text.DoubleToString | src/main/kotlin/domain/usecases/CalculateSpacedRepetitionUseCase.kt:29 | a rendered factor is a single line that starts with no whitespace |
| Text.DoubleToStringDefaultFactor | src/main/kotlin/domain/usecases/CalculateSpacedRepetitionUseCase.kt:29 | the default factor 2.5 renders as "2.5" |
| Text.Upper | src/main/kotlin/domain/usecases/GenerateFlashcardUseCase.kt:44 | upper-casing keeps the length and maps each character on its own |
| Text.UpperIdempotent | src/main/kotlin/domain/usecases/GenerateFlashcardUseCase.kt:44 | upper-casing twice is upper-casing once |
| Text.JoinHasElement | src/main/kotlin/domain/usecases/ProcessChatResponseUseCase.kt:19 | every element of a joined list occurs verbatim in the joined text |
| Text.JoinElementsInfix | src/main/kotlin/domain/usecases/ValidateFlashcardAnswerUseCase.kt:23 | whatever contains a joined list contains each of its elements |
| Text.JoinNoLineBreak | src/main/kotlin/domain/usecases/ValidateFlashcardAnswerUseCase.kt:23 | single-line elements joined by ", " make a single line |
| Text.SplitJoin | src/main/kotlin/domain/usecases/ProcessChatResponseUseCase.kt:19-20 | splitting a joined list at its one-character separator gives the list back when no element contains the separator |
| Text.IndentWidth | src/main/kotlin/domain/usecases/ValidateFlashcardAnswerUseCase.kt:35 | the indentation of a line is its leading whitespace run, and covers the whole line iff it is blank |
| Text.MinIndent | src/main/kotlin/domain/usecases/ValidateFlashcardAnswerUseCase.kt:35 | the smallest indentation among the non-blank lines, attained by one of them; none iff every line is blank |
| Text.LinesBlock | src/main/kotlin/domain/usecases/CalculateSpacedRepetitionUseCase.kt:72 | single-line texts joined with LF and followed by an LF are read back by `lines()` as those lines |
| Text.TrimIndentKeepsBlock | src/main/kotlin/domain/usecases/ValidateFlashcardAnswerUseCase.kt:35 | a block of whole lines inside a text comes out of `trimIndent` as those lines with the common indentation cut, which is no wider than any non-blank line of the block |
| Text.TrimIndentKeepsLines | src/main/kotlin/domain/usecases/CalculateSpacedRepetitionUseCase.kt:72 | an indented line holding interpolated lines loses at most its own indentation, and none when it holds two lines or more; those lines are found whole in the result |
| Text.TrimIndentKeepsLine | src/main/kotlin/domain/usecases/ValidateFlashcardAnswerUseCase.kt:35 | an indented single-line template line is found whole after `trimIndent` |

## Left out

- Network failures are not modelled: the listener's `onCancelled` and failing `setValueAsync` calls. Nor is the bridge from callbacks to coroutines. Each repository call is one atomic step on an in-memory store that does not fail.
- Fresh ids come from `Store.FreshKey`. It returns a key not yet in use, and stands for Firebase push keys and random UUIDs. The fallbacks `?: ""` and `?: UUID` are not modelled, because a push key on a child reference is never null.
- The store lists a node's children in an order of its own choosing, which methods return as a ghost `order`. Firebase sorts children by key, and this model does not say so.
- Decks and chat messages are stored as typed records. The object mapper behind `getValue(Deck::class.java)` and `getValue(ChatMessage::class.java)` is not modelled, and neither is `mapNotNull` dropping entries it cannot map.
- FlashcardRepository.SaveAll: the object mapper that turns a card into a stored record is the parameter `encode`, not modelled.
- FlashcardRepository.ApplyBatch stores each card two levels below `flashcards`, under its deck id and its card id. Firebase reads a `/` inside an id as a further level. So a card whose deck id or card id contains `/` is stored elsewhere in Firebase than in the model. When two such cards share an update path (`SlashedIdsShareAnEntry`), the model stores the later card under its own ids, and the other card's old record stays in place.
- `FlashcardRepository.RecordOf` is a record layout of this model, used to state the decoding round-trip. It is not the mapper's own encoding.
- FlashcardRepository.SavedCardReadsBack: the read-back holds only for the layout of `RecordOf`, which writes the serial name under `"type"`. The program's cards need not be saved that way: the `Flashcard` class declares no `type` property (`FlashCards.kt:13`). If the object mapper writes only declared properties, saved cards do not read back (see Findings).
- FlashcardRepository.AsStringList: Kotlin's unchecked `as? List<String>` keeps any list, and `joinToString` renders each element with `toString()`. A stored list `["Brasília", 42]` is kept, and the grading prompt quotes "Brasília, 42". The model decodes a list with a non-string element as null, so `ValidateAnswer.AnswersOf` quotes the empty text there instead.
- FlashcardRepository.AsStringMap: Kotlin's unchecked `as? Map<String, String>` keeps any map. The model decodes a map with a non-string value as null. Nothing in the modelled code reads `respostasCloze`, so only the decoded field differs: null instead of the mixed map.
- DeckRepository.Update: `FireBaseDeckRepository.kt` does not implement the interface's `update`. The model records each call as issued and does not apply the update to the stored deck.
- The generative service is a function parameter: `ValidateAnswer.Execute`'s and `SpacedRepetition.Execute`'s `ask`. The Gemini and Groq clients, their DTOs and JSON decoding are not part of this model.
- Several values are parameters:
  - the clock (`now` in `ProcessChat.Execute`);
  - today's date (`today`);
  - the timezone-dependent conversion of the service's date to an epoch millisecond (`startOfDay`).
- `println` logging is left out. So are the HTTP routes, authentication, serialization setup and application bootstrap.
- ProcessChat.Execute: the in-memory store never fails, so the caught-exception path is not modelled. The method always succeeds, and no failure reaches its caller.
- ProcessChat.GetChatMessages: the source discards what it reads, so the contract states only that the store is unchanged.
- ChatRepository.GetLatestMessages: the message text of the rejection for a limit below 1 stands for the one Firebase's `limitToLast` throws.
- Text.Take counts Unicode scalar values, while Kotlin's `take` counts UTF-16 code units. The two differ only on characters outside the Basic Multilingual Plane. The ids it shortens are push keys and UUIDs, which are ASCII.
- Text.DoubleToString renders Kotlin's `Double.toString()` only for values below 10^7 in magnitude with at most one decimal digit, such as the default 2.5. Three cases are not modelled:
  - the shortest-representation rendering of other doubles;
  - the E-notation Kotlin uses from 10^7 up: 1.0E7 renders as "1.0E7", while the model gives "10000000.0";
  - negative zero, which Kotlin renders as "-0.0" and which reals do not have.
- Text.Upper upper-cases the ASCII letters, dotless i and long s, the characters whose upper case is a single ASCII capital. Every other character is left as it is. The serial names it is compared against are ASCII, and no other character's upper case can produce them. So which types are accepted is exact, but the upper-cased text of other characters is not.
- ValidateAnswer.Execute names a refused card by its variant's serial name. The source's `flashcard.type` does not exist on the current `Flashcard` class.
- The prompt lemmas take the interpolated values as single-line text. They say nothing about a question, answer, deck name, date, card id or chat message that contains a line break. Such a value changes the prompt's line structure.

## Findings

| source | as written | input that shows it | evidently intended | confidence | as-written member | corrected member |
|---|---|---|---|---|---|---|
| src/main/kotlin/domain/model/FlashCards.kt:13 | `Flashcard` declares no `type` property. A mapper that writes the declared properties stores records without `"type"`, and `toFlashcard` (FirebaseFlashcardRepository.kt:29, 68) reads such a record as null | any card passed to `saveAll`, then looked up with `findById` at its deck id and card id | saved records carry the card's serial name under `"type"`, so a saved card is found again | medium, not executed; it depends on the object mapper, which is not part of this model | FlashcardRepository.UntaggedSavedCardsAreLost | FlashcardRepository.SavedCardReadsBack |
