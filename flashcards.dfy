/** The flashcard model of `domain/model/FlashCards.kt`: a closed union of four card
    shapes. Every shape carries the same identity fields (`id`, `deckId`, `userId`) and
    the same spaced-repetition bookkeeping fields, and every field is nullable with
    a default. */
module FlashCards {
  import opened Wrappers
  import opened Primitives

  /** One option of a multiple-choice card. */
  datatype Alternativa = Alternativa(text: Option<string> := Some(""), isCorrect: Option<bool> := Some(false))

  /** The sealed class `Flashcard` and its four data-class variants. The `real`
      easiness factor stands for Kotlin's `Double`, on which the code does no
      arithmetic. */
  datatype Flashcard =
    | FrenteVerso(
        id: Option<string> := Some(""),
        deckId: Option<string> := Some(""),
        userId: Option<string> := Some(""),
        fatorFacilidade: Option<real> := Some(2.5),
        repeticoes: Option<Int32> := Some(0),
        intervaloEmDias: Option<Int32> := Some(1),
        proximaRevisaoTimestamp: Option<Int64> := Some(0),
        frente: Option<string> := Some(""),
        verso: Option<string> := Some(""))
    | Cloze(
        id: Option<string> := Some(""),
        deckId: Option<string> := Some(""),
        userId: Option<string> := Some(""),
        fatorFacilidade: Option<real> := Some(2.5),
        repeticoes: Option<Int32> := Some(0),
        intervaloEmDias: Option<Int32> := Some(1),
        proximaRevisaoTimestamp: Option<Int64> := Some(0),
        textoComLacunas: Option<string> := Some(""),
        respostasCloze: Option<map<string, string>> := Some(map[]))
    | DigiteResposta(
        id: Option<string> := Some(""),
        deckId: Option<string> := Some(""),
        userId: Option<string> := Some(""),
        fatorFacilidade: Option<real> := Some(2.5),
        repeticoes: Option<Int32> := Some(0),
        intervaloEmDias: Option<Int32> := Some(1),
        proximaRevisaoTimestamp: Option<Int64> := Some(0),
        pergunta: Option<string> := Some(""),
        respostasValidas: Option<seq<string>> := Some([]))
    | MultiplaEscolha(
        id: Option<string> := Some(""),
        deckId: Option<string> := Some(""),
        userId: Option<string> := Some(""),
        fatorFacilidade: Option<real> := Some(2.5),
        repeticoes: Option<Int32> := Some(0),
        intervaloEmDias: Option<Int32> := Some(1),
        proximaRevisaoTimestamp: Option<Int64> := Some(0),
        pergunta: Option<string> := Some(""),
        alternativas: Option<seq<Alternativa>> := Some([]),
        respostaCorreta: Option<string> := Some(""))

  /** The four variants, as the serial names `@SerialName` gives them. */
  datatype CardType = FrenteVersoType | ClozeType | DigiteRespostaType | MultiplaEscolhaType

  function TypeOf(c: Flashcard): CardType
  {
    match c
    case FrenteVerso(_, _, _, _, _, _, _, _, _) => FrenteVersoType
    case Cloze(_, _, _, _, _, _, _, _, _) => ClozeType
    case DigiteResposta(_, _, _, _, _, _, _, _, _) => DigiteRespostaType
    case MultiplaEscolha(_, _, _, _, _, _, _, _, _, _) => MultiplaEscolhaType
  }

  /** The discriminator value of each variant. */
  function SerialName(t: CardType): string
  {
    match t
    case FrenteVersoType => "FRENTE_VERSO"
    case ClozeType => "CLOZE"
    case DigiteRespostaType => "DIGITE_RESPOSTA"
    case MultiplaEscolhaType => "MULTIPLA_ESCOLHA"
  }

  /** The variant a discriminator value names; any other text names none. */
  function ParseSerialName(s: string): (t: Option<CardType>)
    ensures t.Some? ==> SerialName(t.value) == s
    ensures t.None? ==> forall u: CardType :: SerialName(u) != s
  {
    if s == "FRENTE_VERSO" then Some(FrenteVersoType)
    else if s == "CLOZE" then Some(ClozeType)
    else if s == "DIGITE_RESPOSTA" then Some(DigiteRespostaType)
    else if s == "MULTIPLA_ESCOLHA" then Some(MultiplaEscolhaType)
    else None
  }

  /** The four discriminator values are pairwise distinct, so a card's discriminator
      determines its variant, and every discriminator is read back as its variant. */
  lemma TagDeterminesVariant(a: Flashcard, b: Flashcard)
    ensures SerialName(TypeOf(a)) == SerialName(TypeOf(b)) <==> TypeOf(a) == TypeOf(b)
    ensures ParseSerialName(SerialName(TypeOf(a))) == Some(TypeOf(a))
  {
  }

  /** The identity fields every variant carries. */
  datatype Identity = Identity(id: Option<string>, deckId: Option<string>, userId: Option<string>)

  /** The spaced-repetition bookkeeping fields every variant carries. */
  datatype Bookkeeping = Bookkeeping(
    fatorFacilidade: Option<real>,
    repeticoes: Option<Int32>,
    intervaloEmDias: Option<Int32>,
    proximaRevisaoTimestamp: Option<Int64>)

  /** What a card built without explicit bookkeeping holds. */
  const DefaultBookkeeping := Bookkeeping(Some(2.5), Some(0), Some(1), Some(0))

  /** The variant-specific fields. */
  datatype Payload =
    | FrenteVersoPayload(frente: Option<string>, verso: Option<string>)
    | ClozePayload(textoComLacunas: Option<string>, respostasCloze: Option<map<string, string>>)
    | DigiteRespostaPayload(pergunta: Option<string>, respostasValidas: Option<seq<string>>)
    | MultiplaEscolhaPayload(pergunta: Option<string>, alternativas: Option<seq<Alternativa>>, respostaCorreta: Option<string>)

  function PayloadType(p: Payload): CardType
  {
    match p
    case FrenteVersoPayload(_, _) => FrenteVersoType
    case ClozePayload(_, _) => ClozeType
    case DigiteRespostaPayload(_, _) => DigiteRespostaType
    case MultiplaEscolhaPayload(_, _, _) => MultiplaEscolhaType
  }

  function IdentityOf(c: Flashcard): Identity
  {
    Identity(c.id, c.deckId, c.userId)
  }

  function BookkeepingOf(c: Flashcard): Bookkeeping
  {
    Bookkeeping(c.fatorFacilidade, c.repeticoes, c.intervaloEmDias, c.proximaRevisaoTimestamp)
  }

  function PayloadOf(c: Flashcard): (p: Payload)
    ensures PayloadType(p) == TypeOf(c)
  {
    match c
    case FrenteVerso(_, _, _, _, _, _, _, frente, verso) => FrenteVersoPayload(frente, verso)
    case Cloze(_, _, _, _, _, _, _, texto, respostas) => ClozePayload(texto, respostas)
    case DigiteResposta(_, _, _, _, _, _, _, pergunta, respostas) => DigiteRespostaPayload(pergunta, respostas)
    case MultiplaEscolha(_, _, _, _, _, _, _, pergunta, alternativas, correta) =>
      MultiplaEscolhaPayload(pergunta, alternativas, correta)
  }

  predicate HasDefaultBookkeeping(c: Flashcard)
  {
    BookkeepingOf(c) == DefaultBookkeeping
  }

  /** The card of the payload's variant with the given shared fields: every variant
      takes the same seven shared fields, and the parts are read back unchanged. */
  function Assemble(i: Identity, b: Bookkeeping, p: Payload): (c: Flashcard)
    ensures IdentityOf(c) == i && BookkeepingOf(c) == b && PayloadOf(c) == p
    ensures TypeOf(c) == PayloadType(p)
  {
    match p
    case FrenteVersoPayload(frente, verso) =>
      FrenteVerso(i.id, i.deckId, i.userId, b.fatorFacilidade, b.repeticoes, b.intervaloEmDias,
                  b.proximaRevisaoTimestamp, frente, verso)
    case ClozePayload(texto, respostas) =>
      Cloze(i.id, i.deckId, i.userId, b.fatorFacilidade, b.repeticoes, b.intervaloEmDias,
            b.proximaRevisaoTimestamp, texto, respostas)
    case DigiteRespostaPayload(pergunta, respostas) =>
      DigiteResposta(i.id, i.deckId, i.userId, b.fatorFacilidade, b.repeticoes, b.intervaloEmDias,
                     b.proximaRevisaoTimestamp, pergunta, respostas)
    case MultiplaEscolhaPayload(pergunta, alternativas, correta) =>
      MultiplaEscolha(i.id, i.deckId, i.userId, b.fatorFacilidade, b.repeticoes, b.intervaloEmDias,
                      b.proximaRevisaoTimestamp, pergunta, alternativas, correta)
  }

  /** A card is nothing but its identity, its bookkeeping and its payload. */
  lemma Decompose(c: Flashcard)
    ensures Assemble(IdentityOf(c), BookkeepingOf(c), PayloadOf(c)) == c
  {
  }

  /** Kotlin's `card.copy(id = .., deckId = .., userId = ..)`, the same on every
      variant: only the identity changes. */
  function WithIdentity(c: Flashcard, id: Option<string>, deckId: Option<string>, userId: Option<string>): (r: Flashcard)
    ensures IdentityOf(r) == Identity(id, deckId, userId)
    ensures TypeOf(r) == TypeOf(c) && BookkeepingOf(r) == BookkeepingOf(c) && PayloadOf(r) == PayloadOf(c)
  {
    c.(id := id, deckId := deckId, userId := userId)
  }

  /** The payload of a variant built with no arguments. */
  function DefaultPayload(t: CardType): (p: Payload)
    ensures PayloadType(p) == t
  {
    match t
    case FrenteVersoType => FrenteVersoPayload(Some(""), Some(""))
    case ClozeType => ClozePayload(Some(""), Some(map[]))
    case DigiteRespostaType => DigiteRespostaPayload(Some(""), Some([]))
    case MultiplaEscolhaType => MultiplaEscolhaPayload(Some(""), Some([]), Some(""))
  }

  /** A card of the given variant built from the declared defaults alone. */
  function Blank(t: CardType): (c: Flashcard)
    ensures TypeOf(c) == t
    ensures IdentityOf(c) == Identity(Some(""), Some(""), Some(""))
    ensures HasDefaultBookkeeping(c)
    ensures PayloadOf(c) == DefaultPayload(t)
  {
    match t
    case FrenteVersoType => FrenteVerso()
    case ClozeType => Cloze()
    case DigiteRespostaType => DigiteResposta()
    case MultiplaEscolhaType => MultiplaEscolha()
  }

  /** A card built with only its identity and payload given has the default
      bookkeeping, whatever the variant; so has a default `Alternativa` an empty text
      and is not marked correct. */
  lemma BookkeepingDefaults(id: Option<string>, deckId: Option<string>, userId: Option<string>, s: Option<string>)
    ensures HasDefaultBookkeeping(FrenteVerso(id := id, deckId := deckId, userId := userId, frente := s, verso := s))
    ensures HasDefaultBookkeeping(Cloze(id := id, deckId := deckId, userId := userId, textoComLacunas := s))
    ensures HasDefaultBookkeeping(DigiteResposta(id := id, deckId := deckId, userId := userId, pergunta := s))
    ensures HasDefaultBookkeeping(MultiplaEscolha(id := id, deckId := deckId, userId := userId, pergunta := s, respostaCorreta := s))
    ensures Alternativa() == Alternativa(Some(""), Some(false))
  {
  }
}
