/** `domain/usecases/CalculateSpacedRepetitionUseCase.kt`: the next review date of a
    deck, asked of the generative service. The caller's deck and its cards are read,
    each card is summarised on one line, the summary goes into a planning prompt, and
    the date the service answers is stored on the deck as a timestamp. */
module SpacedRepetition {
  import opened Wrappers
  import opened Primitives
  import opened Records
  import opened Text
  import opened FlashCards
  import opened Store
  import DeckRepository
  import FlashcardRepository

  // ---------------------------------------------------------------------------
  // The performance summary

  /** The first five characters of a card's id, "null" without one (`it.id?.take(5)`). */
  function ShortId(id: Option<string>): (r: string)
    ensures id.Some? ==> r <= id.value && |r| == if |id.value| < 5 then |id.value| else 5
    ensures id.None? ==> r == "null"
  {
    match id
    case Some(s) => Take(s, 5)
    case None => "null"
  }

  /** A summary line with its three fields already rendered. */
  function SummaryItem(shortId: string, reviews: string, factor: string): string
  {
    "- Card ID " + shortId + ": " + reviews + " revisões, fator de facilidade " + factor
  }

  /** One card's line: its short id, its review count (0 when missing) and its easiness
      factor (2.5 when missing). */
  function SummaryLine(c: Flashcard): string
  {
    SummaryItem(ShortId(c.id), IntToString(c.repeticoes.GetOr(0) as int), DoubleToString(c.fatorFacilidade.GetOr(2.5)))
  }

  function SummaryLines(cards: seq<Flashcard>): (r: seq<string>)
    ensures |r| == |cards|
    ensures forall i :: 0 <= i < |cards| ==> r[i] == SummaryLine(cards[i])
  {
    seq(|cards|, i requires 0 <= i < |cards| => SummaryLine(cards[i]))
  }

  /** The summary: one line per card, in the listing's order. */
  function PerformanceSummary(cards: seq<Flashcard>): string
  {
    Join(SummaryLines(cards), "\n")
  }

  lemma SummaryItemOnOneLine(shortId: string, reviews: string, factor: string)
    requires NoLineBreak(shortId) && NoLineBreak(reviews) && NoLineBreak(factor)
    ensures NoLineBreak(SummaryItem(shortId, reviews, factor))
    ensures |SummaryItem(shortId, reviews, factor)| > 0 && SummaryItem(shortId, reviews, factor)[0] == '-'
  {
    var a := "- Card ID " + shortId;
    NoLineBreakConcat("- Card ID ", shortId);
    NoLineBreakConcat(a, ": ");
    NoLineBreakConcat(a + ": ", reviews);
    NoLineBreakConcat(a + ": " + reviews, " revisões, fator de facilidade ");
    NoLineBreakConcat(a + ": " + reviews + " revisões, fator de facilidade ", factor);
  }

  lemma ShortIdOnOneLine(id: Option<string>)
    requires id.Some? ==> NoLineBreak(id.value)
    ensures NoLineBreak(ShortId(id))
  {
    if id.Some? {
      var r := ShortId(id);
      forall i | 0 <= i < |r|
        ensures !IsLineBreak(r[i])
      {
        assert r[i] == id.value[i];
      }
    }
  }

  /** A card whose id is on one line is summarised on one line, which starts with the
      dash of a list item. */
  lemma SummaryLineOnOneLine(c: Flashcard)
    requires c.id.Some? ==> NoLineBreak(c.id.value)
    ensures NoLineBreak(SummaryLine(c)) && |SummaryLine(c)| > 0 && SummaryLine(c)[0] == '-'
  {
    ShortIdOnOneLine(c.id);
    SummaryItemOnOneLine(ShortId(c.id), IntToString(c.repeticoes.GetOr(0) as int), DoubleToString(c.fatorFacilidade.GetOr(2.5)));
  }

  /** Every card summarised on one line, each line starting with no whitespace. */
  lemma SummaryLinesOnOneLine(cards: seq<Flashcard>)
    requires forall c :: c in cards && c.id.Some? ==> NoLineBreak(c.id.value)
    ensures forall i :: 0 <= i < |cards| ==>
      NoLineBreak(SummaryLines(cards)[i]) && |SummaryLines(cards)[i]| > 0 && !IsWhitespace(SummaryLines(cards)[i][0])
  {
    forall i | 0 <= i < |cards|
      ensures NoLineBreak(SummaryLines(cards)[i]) && |SummaryLines(cards)[i]| > 0 && !IsWhitespace(SummaryLines(cards)[i][0])
    {
      assert cards[i] in cards;
      SummaryLineOnOneLine(cards[i]);
    }
  }

  /** The line of a card that has no review history: no reviews, factor 2.5. */
  function FreshCardLine(id: Option<string>): string
  {
    SummaryItem(ShortId(id), "0", "2.5")
  }

  /** A card with the default bookkeeping is summarised as never reviewed. */
  lemma DefaultBookkeepingLine(c: Flashcard)
    requires HasDefaultBookkeeping(c)
    ensures SummaryLine(c) == FreshCardLine(c.id)
  {
    DoubleToStringDefaultFactor();
    assert IntToString(0) == "0";
  }

  /** The cards the repository lists carry the default bookkeeping, since its decoder
      reads none of the stored one; so the summary of any listing reports every card as
      never reviewed, with the default factor. */
  lemma ListedCardsHaveNoHistory(db: Database, deckId: string, userId: string, cards: seq<Flashcard>, order: seq<string>)
    requires FlashcardRepository.IsListing(db, deckId, userId, cards, order)
    ensures forall i :: 0 <= i < |cards| ==> SummaryLines(cards)[i] == FreshCardLine(cards[i].id)
  {
    forall i | 0 <= i < |cards|
      ensures SummaryLines(cards)[i] == FreshCardLine(cards[i].id)
    {
      assert cards[i] in cards;
      DefaultBookkeepingLine(cards[i]);
    }
  }

  // ---------------------------------------------------------------------------
  // The prompt (`buildPrompt`)

  /** The indentation of the prompt's raw string literal. */
  const Indent := 12

  function TodayLine(today: string): string
  {
    "- **Data de Hoje:** " + today
  }

  function DeckLine(deckName: string): string
  {
    "- **Nome do Deck:** \"" + deckName + "\""
  }

  /** Line `i` of the prompt's raw string literal, with today's date, the deck's name
      and the summary interpolated: an empty first line, the text indented by 12
      spaces, empty lines between sections, and a last line of 8 spaces. The summary
      goes in as it is, so its second and later lines are not indented. */
  function PlanningLine(i: nat, deckName: string, summary: string, today: string): string
  {
    match i
    case 0 => ""
    case 1 => Spaces(Indent) + "Você é um especialista em algoritmos de repetição espaçada (Spaced Repetition System - SRS)."
    case 2 => Spaces(Indent) + "Sua tarefa é calcular a data ideal para a próxima sessão de revisão de um baralho de estudos (deck)."
    case 3 => ""
    case 4 => Spaces(Indent) + "**Contexto:**"
    case 5 => Spaces(Indent) + TodayLine(today)
    case 6 => Spaces(Indent) + DeckLine(deckName)
    case 7 => Spaces(Indent) + "- **Histórico de Performance do Usuário nos Cards:**"
    case 8 => Spaces(Indent) + summary
    case 9 => ""
    case 10 => Spaces(Indent) + "**Tarefa:**"
    case 11 => Spaces(Indent) + "Com base no histórico e nos princípios de repetição espaçada (revisar mais tarde o que é fácil, revisar mais cedo o que é difícil),"
    case 12 => Spaces(Indent) + "calcule a data ideal para a próxima revisão deste deck. A data deve ser no futuro."
    case 13 => ""
    case 14 => Spaces(Indent) + "**Formato da Resposta:**"
    case 15 => Spaces(Indent) + "Responda APENAS com um objeto JSON válido, sem nenhum texto adicional ou markdown."
    case 16 => Spaces(Indent) + "A estrutura do JSON deve ser a seguinte:"
    case 17 => Spaces(Indent) + "{"
    case 18 => Spaces(Indent) + "  \"proximaDataRevisao\": \"YYYY-MM-DD\""
    case 19 => Spaces(Indent) + "}"
    case _ => Spaces(8)
  }

  /** The raw string literal, line by line. */
  function PlanningTemplate(deckName: string, summary: string, today: string): (t: seq<string>)
    ensures |t| == 21
  {
    seq(21, i requires 0 <= i < 21 => PlanningLine(i, deckName, summary, today))
  }

  /** `buildPrompt(deckName, performanceSummary)` on the day `today`: the template after
      `trimIndent`. */
  function BuildPrompt(deckName: string, summary: string, today: string): string
  {
    TrimIndent(Join(PlanningTemplate(deckName, summary, today), "\n"))
  }

  lemma TodayQuoted(deckName: string, summary: string, today: string)
    requires NoLineBreak(today)
    ensures IsInfix(TodayLine(today), BuildPrompt(deckName, summary, today))
  {
    NoLineBreakConcat("- **Data de Hoje:** ", today);
    TrimIndentKeepsLine(PlanningTemplate(deckName, summary, today), 5, Indent, TodayLine(today));
  }

  lemma DeckNameQuoted(deckName: string, summary: string, today: string)
    requires NoLineBreak(deckName)
    ensures IsInfix(DeckLine(deckName), BuildPrompt(deckName, summary, today))
  {
    NoLineBreakConcat("- **Nome do Deck:** \"", deckName);
    NoLineBreakConcat("- **Nome do Deck:** \"" + deckName, "\"");
    TrimIndentKeepsLine(PlanningTemplate(deckName, summary, today), 6, Indent, DeckLine(deckName));
  }

  /** The indentation `trimIndent` cuts from the prompt of a summary of one-line items:
      at most the template's 12 spaces, and none at all once the summary has a second
      line. The summary itself is kept whole. */
  lemma SummaryQuoted(deckName: string, lines: seq<string>, today: string)
    requires |lines| >= 1
    requires forall i :: 0 <= i < |lines| ==> NoLineBreak(lines[i]) && |lines[i]| > 0 && !IsWhitespace(lines[i][0])
    ensures var t := PlanningTemplate(deckName, Join(lines, "\n"), today);
      && CommonIndent(Lines(Join(t, "\n"))) <= Indent
      && (|lines| >= 2 ==> CommonIndent(Lines(Join(t, "\n"))) == 0)
      && IsInfix(Join(lines, "\n"), BuildPrompt(deckName, Join(lines, "\n"), today))
  {
    var t := PlanningTemplate(deckName, Join(lines, "\n"), today);
    TrimIndentKeepsLines(t, 8, Indent, lines);
  }

  /** The prompt for a deck whose name, date and cards' ids are on one line quotes the
      date, the deck's name and the whole summary. */
  lemma PromptQuotesDeck(deckName: string, cards: seq<Flashcard>, today: string)
    requires cards != []
    requires NoLineBreak(deckName) && NoLineBreak(today)
    requires forall c :: c in cards && c.id.Some? ==> NoLineBreak(c.id.value)
    ensures var prompt := BuildPrompt(deckName, PerformanceSummary(cards), today);
      && IsInfix(TodayLine(today), prompt)
      && IsInfix(DeckLine(deckName), prompt)
      && IsInfix(PerformanceSummary(cards), prompt)
      && (forall i :: 0 <= i < |cards| ==> IsInfix(SummaryLine(cards[i]), prompt))
  {
    var summary := PerformanceSummary(cards);
    SummaryLinesOnOneLine(cards);
    TodayQuoted(deckName, summary, today);
    DeckNameQuoted(deckName, summary, today);
    SummaryQuoted(deckName, SummaryLines(cards), today);
    JoinElementsInfix(SummaryLines(cards), "\n", BuildPrompt(deckName, summary, today));
  }

  // ---------------------------------------------------------------------------
  // The use case

  const DeckNotFound := Failed("Deck não encontrado.")

  /** The field the recommendation updates on the deck. */
  const NextReviewField := "proximaRevisaoTimestamp"

  /** What the use case decides for a deck named `deckName` with the listed `cards`:
      nothing for a deck without cards; otherwise the service's date, as the epoch
      millisecond that `startOfDay` gives the start of that day, or the failure of the
      service or of reading its date. */
  function Recommendation(deckName: string, cards: seq<Flashcard>, today: string,
                          ask: string -> Result<RecommendationDTOs, string>,
                          startOfDay: string -> Option<Int64>): (r: Result<Option<Int64>, Error>)
    ensures cards == [] <==> r == Success(None)
    ensures r.Success? && r.value.Some? ==>
      var reply := ask(BuildPrompt(deckName, PerformanceSummary(cards), today));
      reply.Success? && startOfDay(reply.value.proximaDataRevisao) == Some(r.value.value)
    ensures r.Failure? ==>
      var reply := ask(BuildPrompt(deckName, PerformanceSummary(cards), today));
      if reply.Failure? then r.error == ServiceError(reply.error)
      else r.error == DateParseError(reply.value.proximaDataRevisao) && startOfDay(reply.value.proximaDataRevisao).None?
  {
    if cards == [] then Success(None)
    else
      match ask(BuildPrompt(deckName, PerformanceSummary(cards), today))
      case Failure(e) => Failure(ServiceError(e))
      case Success(reply) =>
        match startOfDay(reply.proximaDataRevisao)
        case None => Failure(DateParseError(reply.proximaDataRevisao))
        case Some(timestamp) => Success(Some(timestamp))
  }

  /** A deck with cards is never left as it was on success: either the service's date
      is stored, or the call fails. */
  lemma CardsAlwaysGetADate(deckName: string, cards: seq<Flashcard>, today: string,
                            ask: string -> Result<RecommendationDTOs, string>,
                            startOfDay: string -> Option<Int64>)
    requires cards != []
    ensures var r := Recommendation(deckName, cards, today, ask, startOfDay);
      r.Failure? || r.value.Some?
    ensures var reply := ask(BuildPrompt(deckName, PerformanceSummary(cards), today));
      reply.Success? && startOfDay(reply.value.proximaDataRevisao).Some? ==>
        Recommendation(deckName, cards, today, ask, startOfDay) == Success(startOfDay(reply.value.proximaDataRevisao))
  {
  }

  /** The deck update that stores a recommended timestamp. */
  function NextReviewUpdate(deckId: string, userId: string, timestamp: Int64): (u: DeckUpdate)
    ensures u.updates.Keys == {NextReviewField} && u.updates[NextReviewField] == timestamp
  {
    DeckUpdate(deckId, userId, map[NextReviewField := timestamp])
  }

  /** `execute(userId, deckId)` on the day `today`, with the service as `ask` and the
      conversion of a "YYYY-MM-DD" date to the epoch millisecond of its start as
      `startOfDay`. A deck the caller does not hold fails before anything is read;
      otherwise the deck's listed `cards` decide, and a recommended timestamp is written
      to the deck as one partial update. Nothing else changes. */
  method Execute(db: Database, userId: string, deckId: string, today: string,
                 ask: string -> Result<RecommendationDTOs, string>,
                 startOfDay: string -> Option<Int64>)
    returns (r: Result<(), Error>, ghost cards: seq<Flashcard>, ghost order: seq<string>)
    modifies db
    ensures DeckRepository.FindById(db, deckId, userId).None? ==>
      r == Failure(DeckNotFound) && db.deckUpdates == old(db.deckUpdates)
    ensures DeckRepository.FindById(db, deckId, userId).Some? ==>
      && FlashcardRepository.IsListing(db, deckId, userId, cards, order)
      && var plan := Recommendation(DeckRepository.FindById(db, deckId, userId).value.name, cards, today, ask, startOfDay);
         && (plan.Failure? ==> r == Failure(plan.error) && db.deckUpdates == old(db.deckUpdates))
         && (plan == Success(None) ==> r == Success(()) && db.deckUpdates == old(db.deckUpdates))
         && (plan.Success? && plan.value.Some? ==>
               r == Success(()) && db.deckUpdates == old(db.deckUpdates) + [NextReviewUpdate(deckId, userId, plan.value.value)])
    ensures db.decks == old(db.decks) && db.flashcards == old(db.flashcards) && db.chats == old(db.chats)
  {
    var deck := DeckRepository.FindById(db, deckId, userId);
    if deck.None? {
      return Failure(DeckNotFound), [], [];
    }
    var listed, listedOrder := FlashcardRepository.FindAllByDeckId(db, deckId, userId);
    cards, order := listed, listedOrder;
    var plan := Recommendation(deck.value.name, listed, today, ask, startOfDay);
    match plan
    case Failure(e) =>
      r := Failure(e);
    case Success(None) =>
      r := Success(());
    case Success(Some(timestamp)) =>
      DeckRepository.Update(db, deckId, userId, NextReviewUpdate(deckId, userId, timestamp).updates);
      r := Success(());
  }
}
