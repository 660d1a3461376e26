/** `domain/usecases/GenerateFlashcardUseCase.kt`: a stand-in generator. It checks that
    the caller owns the deck, summarises up to five of the deck's cards as context for
    a future generative service, and returns a fixed card of the requested shape. Only
    the front/back and multiple-choice shapes can be generated. */
module GenerateFlashcard {
  import opened Wrappers
  import opened Records
  import opened Text
  import opened FlashCards
  import opened Store
  import DeckRepository
  import FlashcardRepository

  // ---------------------------------------------------------------------------
  // The context text

  /** The context used when the deck has no cards yet. */
  const FirstCardContext := "Este é o primeiro flashcard a ser criado neste deck."

  /** The heading of the context when the deck already has cards. It is one literal in
      the source; the pieces, cut at spaces, keep the prover's string terms short. */
  const ExistingCardsHeading := "Para evitar repetição, aqui " + "estão alguns flashcards já " + "existentes neste deck:"

  /** How many existing cards the context quotes. */
  const ContextSize := 5

  /** One quoted card: the front of a front/back card, the question of a typed-answer
      or multiple-choice card, the gapped text of a cloze card; a missing text reads
      "null". */
  function ContextLine(c: Flashcard): (r: string)
    ensures c.Cloze? ==> r == "- Texto: '" + Show(c.textoComLacunas) + "'"
    ensures c.FrenteVerso? ==> r == "- Pergunta: '" + Show(c.frente) + "'"
    ensures c.DigiteResposta? || c.MultiplaEscolha? ==> r == "- Pergunta: '" + Show(c.pergunta) + "'"
  {
    match PayloadOf(c)
    case FrenteVersoPayload(frente, _) => "- Pergunta: '" + Show(frente) + "'"
    case ClozePayload(texto, _) => "- Texto: '" + Show(texto) + "'"
    case DigiteRespostaPayload(pergunta, _) => "- Pergunta: '" + Show(pergunta) + "'"
    case MultiplaEscolhaPayload(pergunta, _, _) => "- Pergunta: '" + Show(pergunta) + "'"
  }

  /** A card whose quoted text has no line feed is quoted on one line. */
  lemma ContextLineOnOneLine(c: Flashcard)
    requires QuotedText(c).None? || '\n' !in QuotedText(c).value
    ensures '\n' !in ContextLine(c)
  {
  }

  /** The text a card is quoted by. */
  function QuotedText(c: Flashcard): Option<string>
  {
    match PayloadOf(c)
    case FrenteVersoPayload(frente, _) => frente
    case ClozePayload(texto, _) => texto
    case DigiteRespostaPayload(pergunta, _) => pergunta
    case MultiplaEscolhaPayload(pergunta, _, _) => pergunta
  }

  /** The first `ContextSize` cards, as `take(5)` gives them. */
  function Quoted(cards: seq<Flashcard>): (r: seq<Flashcard>)
    ensures |r| <= ContextSize && r <= cards
    ensures |cards| >= ContextSize ==> |r| == ContextSize
    ensures |cards| <= ContextSize ==> r == cards
  {
    if |cards| <= ContextSize then cards else cards[..ContextSize]
  }

  function ContextLines(cards: seq<Flashcard>): (r: seq<string>)
    ensures |r| == |cards|
    ensures forall i :: 0 <= i < |cards| ==> r[i] == ContextLine(cards[i])
  {
    seq(|cards|, i requires 0 <= i < |cards| => ContextLine(cards[i]))
  }

  /** The context built from the deck's cards. */
  function CardsContext(cards: seq<Flashcard>): (r: string)
    ensures cards == [] ==> r == FirstCardContext
    ensures cards != [] ==> ExistingCardsHeading + "\n" <= r
  {
    if cards == [] then FirstCardContext
    else ExistingCardsHeading + "\n" + Join(ContextLines(Quoted(cards)), "\n")
  }

  lemma ContextLinesOnOneLine(cards: seq<Flashcard>)
    requires forall c :: c in cards ==> QuotedText(c).None? || '\n' !in QuotedText(c).value
    ensures '\n' !in ExistingCardsHeading
    ensures forall i :: 0 <= i < |ContextLines(Quoted(cards))| ==> '\n' !in ContextLines(Quoted(cards))[i]
  {
    var q := Quoted(cards);
    forall i | 0 <= i < |q|
      ensures '\n' !in ContextLines(q)[i]
    {
      assert q[i] in cards;
      ContextLineOnOneLine(q[i]);
    }
  }

  /** When every quoted text is on one line, the context splits at its line breaks
      into the heading and then one line per quoted card, in the deck's order: at most
      five cards are quoted, and every one of the first five is. */
  lemma CardsContextLines(cards: seq<Flashcard>)
    requires cards != []
    requires forall c :: c in cards ==> QuotedText(c).None? || '\n' !in QuotedText(c).value
    ensures SplitOn(CardsContext(cards), '\n') == [ExistingCardsHeading] + ContextLines(Quoted(cards))
    ensures |SplitOn(CardsContext(cards), '\n')| == 1 + (if |cards| < ContextSize then |cards| else ContextSize)
  {
    var ls := ContextLines(Quoted(cards));
    var xs := [ExistingCardsHeading] + ls;
    assert xs[1..] == ls;
    assert Join(xs, "\n") == CardsContext(cards);
    ContextLinesOnOneLine(cards);
    assert forall i :: 0 <= i < |xs| ==> '\n' !in xs[i] by {
      forall i | 0 <= i < |xs|
        ensures '\n' !in xs[i]
      {
        if i > 0 {
          assert xs[i] == ls[i - 1];
        }
      }
    }
    SplitJoin(xs, '\n');
  }

  // ---------------------------------------------------------------------------
  // The generated card

  /** The front of a generated front/back card. */
  const GeneratedFrente := "Frente (Gerado pela API)"
  /** The question of a generated multiple-choice card. */
  const GeneratedPergunta := "Qual a pergunta? (Gerado pela API)"
  /** The options of a generated multiple-choice card, and the right one. */
  const OptionA := "Alternativa A"
  const OptionB := "Alternativa B (Correta)"
  const OptionC := "Alternativa C"

  /** The back of a generated front/back card, quoting the user's comment. */
  function GeneratedVerso(userComment: Option<string>): (r: string)
    ensures IsInfix(userComment.GetOr("genérico"), r)
  {
    var r := "Verso (Baseado no comentário: " + userComment.GetOr("genérico") + ")";
    InfixAt(userComment.GetOr("genérico"), r, |"Verso (Baseado no comentário: "|);
    r
  }

  /** The rejection of a shape that cannot be generated; it quotes the type as given. */
  function UnsupportedType(requestedType: string): Error
  {
    IllegalArgument("Tipo de flashcard desconhecido ou não suportado para geração: " + requestedType)
  }

  /** The card generated for `requestedType`, compared upper-cased against the serial
      names: a front/back or a multiple-choice card with the fresh id, the deck and the
      user, default bookkeeping and fixed texts; any other type is refused. */
  function GenerateCard(deckId: string, userId: string, requestedType: string, userComment: Option<string>, newId: string): (r: Result<Flashcard, Error>)
    ensures r.Success? <==> Upper(requestedType) == SerialName(FrenteVersoType) || Upper(requestedType) == SerialName(MultiplaEscolhaType)
    ensures r.Failure? ==> r.error == UnsupportedType(requestedType)
    ensures r.Success? ==> SerialName(TypeOf(r.value)) == Upper(requestedType)
    ensures r.Success? ==> IdentityOf(r.value) == Identity(Some(newId), Some(deckId), Some(userId))
    ensures r.Success? ==> HasDefaultBookkeeping(r.value)
  {
    var t := Upper(requestedType);
    if t == "FRENTE_VERSO" then
      Success(FrenteVerso(
        id := Some(newId), deckId := Some(deckId), userId := Some(userId),
        frente := Some(GeneratedFrente),
        verso := Some(GeneratedVerso(userComment))))
    else if t == "MULTIPLA_ESCOLHA" then
      Success(MultiplaEscolha(
        id := Some(newId), deckId := Some(deckId), userId := Some(userId),
        pergunta := Some(GeneratedPergunta),
        alternativas := Some([
          Alternativa(text := Some(OptionA)),
          Alternativa(text := Some(OptionB)),
          Alternativa(text := Some(OptionC))]),
        respostaCorreta := Some(OptionB)))
    else
      Failure(UnsupportedType(requestedType))
  }

  /** The type is read without regard to case: two spellings that upper-case alike
      generate the same card, and a refused type is refused in every spelling. */
  lemma GenerateCardIgnoresCase(deckId: string, userId: string, a: string, b: string, userComment: Option<string>, newId: string)
    requires Upper(a) == Upper(b)
    ensures GenerateCard(deckId, userId, a, userComment, newId).Success? == GenerateCard(deckId, userId, b, userComment, newId).Success?
    ensures GenerateCard(deckId, userId, a, userComment, newId).Success? ==>
      GenerateCard(deckId, userId, a, userComment, newId) == GenerateCard(deckId, userId, b, userComment, newId)
    ensures GenerateCard(deckId, userId, a, userComment, newId).Success? ==>
      GenerateCard(deckId, userId, Upper(a), userComment, newId) == GenerateCard(deckId, userId, a, userComment, newId)
  {
    UpperIdempotent(a);
  }

  /** Cloze and typed-answer cards are never generated. */
  lemma OnlyTwoShapesGenerated(deckId: string, userId: string, requestedType: string, userComment: Option<string>, newId: string)
    requires Upper(requestedType) == SerialName(ClozeType) || Upper(requestedType) == SerialName(DigiteRespostaType)
    ensures GenerateCard(deckId, userId, requestedType, userComment, newId) == Failure(UnsupportedType(requestedType))
  {
  }

  /** A generated front/back card quotes the user's comment on its back, or
      "genérico" without one. */
  lemma GeneratedFrenteVersoQuotesComment(deckId: string, userId: string, requestedType: string, userComment: Option<string>, newId: string)
    requires Upper(requestedType) == SerialName(FrenteVersoType)
    ensures var r := GenerateCard(deckId, userId, requestedType, userComment, newId);
      && r.Success? && r.value.FrenteVerso?
      && r.value.frente == Some(GeneratedFrente)
      && r.value.verso.Some? && IsInfix(userComment.GetOr("genérico"), r.value.verso.value)
  {
  }

  /** A generated multiple-choice card has three options; its right answer is the text
      of the second one and of no other, and no option is flagged correct. */
  lemma GeneratedMultiplaEscolhaShape(deckId: string, userId: string, requestedType: string, userComment: Option<string>, newId: string)
    requires Upper(requestedType) == SerialName(MultiplaEscolhaType)
    ensures var r := GenerateCard(deckId, userId, requestedType, userComment, newId);
      && r.Success? && r.value.MultiplaEscolha?
      && r.value.alternativas.Some? && |r.value.alternativas.value| == 3
      && r.value.respostaCorreta.Some?
      && (forall i :: 0 <= i < 3 ==>
            (r.value.alternativas.value[i].text == r.value.respostaCorreta <==> i == 1))
      && (forall i :: 0 <= i < 3 ==> r.value.alternativas.value[i].isCorrect == Some(false))
  {
    var r := GenerateCard(deckId, userId, requestedType, userComment, newId);
    assert OptionA[12] != OptionB[12];
    assert |OptionC| != |OptionB|;
  }

  // ---------------------------------------------------------------------------
  // The use case

  /** The failure when the caller holds no deck `deckId`. */
  function DeckNotFound(deckId: string): Error
  {
    Failed("Deck com id '" + deckId + "' não foi encontrado ou não pertence a este usuário.")
  }

  /** `execute(deckId, userId, requestedType, userComment)`; `newId` is the random UUID.
      A deck the caller does not hold is refused before anything else; otherwise the
      deck's cards, listed for the caller, make the (logged) `context`, and the result
      is the generated card. Nothing is written. */
  method Execute(db: Database, deckId: string, userId: string, requestedType: string, userComment: Option<string>, newId: string)
    returns (r: Result<Flashcard, Error>, ghost context: string)
    ensures DeckRepository.FindById(db, deckId, userId).None? ==> r == Failure(DeckNotFound(deckId))
    ensures DeckRepository.FindById(db, deckId, userId).Some? ==>
      r == GenerateCard(deckId, userId, requestedType, userComment, newId)
    ensures DeckRepository.FindById(db, deckId, userId).Some? ==>
      exists cards, order :: FlashcardRepository.IsListing(db, deckId, userId, cards, order) && context == CardsContext(cards)
  {
    var deck := DeckRepository.FindById(db, deckId, userId);
    if deck.None? {
      return Failure(DeckNotFound(deckId)), "";
    }
    var existing, order := FlashcardRepository.FindAllByDeckId(db, deckId, userId);
    context := CardsContext(existing);
    r := GenerateCard(deckId, userId, requestedType, userComment, newId);
  }
}
