/** `domain/usecases/ValidateFlashcardAnswerUseCase.kt`: the grading of a typed answer
    by the generative service. Only typed-answer cards are graded; the service receives
    a prompt quoting the question, the accepted answers and the student's answer, and
    its verdict is returned as it comes. */
module ValidateAnswer {
  import opened Wrappers
  import opened Records
  import opened Text
  import opened FlashCards
  import opened Store
  import FlashcardRepository

  // ---------------------------------------------------------------------------
  // The prompt

  /** The indentation of the prompt's raw string literal. */
  const Indent := 20

  // The line openings of the prompt. Each is one literal in the source; the pieces, cut
  // at spaces, keep the prover's string terms short.
  const QuestionPrefix := "A pergunta é: \""
  const AnswersPrefix := ("As respostas " + "consideradas ") + ("100% corretas " + "são: \"")
  const StudentPrefix := "A resposta do aluno " + "foi: \""

  function QuestionLine(pergunta: string): string
  {
    QuestionPrefix + pergunta + "\""
  }

  function AnswersLine(respostasValidas: string): string
  {
    AnswersPrefix + respostasValidas + "\"."
  }

  function StudentLine(userAnswer: string): string
  {
    StudentPrefix + userAnswer + "\"."
  }

  /** The text around the quoted values starts with no whitespace and breaks no line. */
  lemma QuestionPrefixOnOneLine()
    ensures NoLineBreak(QuestionPrefix) && |QuestionPrefix| > 0 && !IsWhitespace(QuestionPrefix[0])
    ensures NoLineBreak("\"")
  {
  }

  lemma AnswersPrefixOnOneLine()
    ensures NoLineBreak(AnswersPrefix) && |AnswersPrefix| > 0 && !IsWhitespace(AnswersPrefix[0])
    ensures NoLineBreak("\".")
  {
    NoLineBreakConcat("As respostas ", "consideradas ");
    NoLineBreakConcat("100% corretas ", "são: \"");
    NoLineBreakConcat("As respostas " + "consideradas ", "100% corretas " + "são: \"");
  }

  lemma StudentPrefixOnOneLine()
    ensures NoLineBreak(StudentPrefix) && |StudentPrefix| > 0 && !IsWhitespace(StudentPrefix[0])
    ensures NoLineBreak("\".")
  {
    NoLineBreakConcat("A resposta do aluno ", "foi: \"");
  }

  /** Line `i` of the prompt's raw string literal after interpolation: an empty first
      line, the text indented by 20 spaces, and a last line of 16 spaces. */
  function GradingLine(i: nat, pergunta: string, respostasValidas: string, userAnswer: string): string
  {
    match i
    case 0 => ""
    case 1 => Spaces(Indent) + "Você é um professor corrigindo a resposta de um flashcard."
    case 2 => Spaces(Indent) + QuestionLine(pergunta)
    case 3 => Spaces(Indent) + AnswersLine(respostasValidas)
    case 4 => Spaces(Indent) + StudentLine(userAnswer)
    case 5 => ""
    case 6 => Spaces(Indent) + "Analise se a resposta do aluno é semanticamente equivalente a uma das respostas corretas..."
    case 7 => Spaces(Indent)
    case 8 => Spaces(Indent) + "Responda APENAS com um objeto JSON com a seguinte estrutura:"
    case 9 => Spaces(Indent) + "{ \"isCorrect\": boolean, \"score\": um inteiro de 0 a 100, \"explanation\": \"uma breve explicação\" }"
    case _ => Spaces(16)
  }

  /** The raw string literal, line by line. */
  function GradingTemplate(pergunta: string, respostasValidas: string, userAnswer: string): (t: seq<string>)
    ensures |t| == 11
  {
    seq(11, i requires 0 <= i < 11 => GradingLine(i, pergunta, respostasValidas, userAnswer))
  }

  /** The prompt: the template after `trimIndent`. */
  function GradingPrompt(pergunta: string, respostasValidas: string, userAnswer: string): string
  {
    TrimIndent(Join(GradingTemplate(pergunta, respostasValidas, userAnswer), "\n"))
  }

  /** A line of the prompt quoting `value` after `prefix`, that starts with no
      whitespace, has no line break when `value` has none, and holds `value`. */
  lemma QuotedLine(prefix: string, value: string, suffix: string)
    requires NoLineBreak(prefix) && NoLineBreak(value) && NoLineBreak(suffix)
    requires |prefix| > 0 && !IsWhitespace(prefix[0])
    ensures var line := prefix + value + suffix;
      NoLineBreak(line) && |line| > 0 && !IsWhitespace(line[0]) && IsInfix(value, line)
  {
    NoLineBreakConcat(prefix, value);
    NoLineBreakConcat(prefix + value, suffix);
    InfixAt(value, prefix + value + suffix, |prefix|);
  }

  /** A template line `Spaces(Indent) + line` at `j` that quotes `value` keeps it. */
  lemma TemplateLineKept(t: seq<string>, j: nat, prefix: string, value: string, suffix: string)
    requires 0 < j < |t| - 1 && t[j] == Spaces(Indent) + (prefix + value + suffix)
    requires NoLineBreak(prefix) && NoLineBreak(value) && NoLineBreak(suffix)
    requires |prefix| > 0 && !IsWhitespace(prefix[0])
    ensures IsInfix(prefix + value + suffix, TrimIndent(Join(t, "\n")))
    ensures IsInfix(value, TrimIndent(Join(t, "\n")))
  {
    QuotedLine(prefix, value, suffix);
    TrimIndentKeepsLine(t, j, Indent, prefix + value + suffix);
    InfixTrans(value, prefix + value + suffix, TrimIndent(Join(t, "\n")));
  }

  lemma QuestionQuoted(pergunta: string, respostasValidas: string, userAnswer: string)
    requires NoLineBreak(pergunta)
    ensures IsInfix(QuestionLine(pergunta), GradingPrompt(pergunta, respostasValidas, userAnswer))
    ensures IsInfix(pergunta, GradingPrompt(pergunta, respostasValidas, userAnswer))
  {
    QuestionPrefixOnOneLine();
    TemplateLineKept(GradingTemplate(pergunta, respostasValidas, userAnswer), 2, QuestionPrefix, pergunta, "\"");
  }

  lemma AnswersQuoted(pergunta: string, respostasValidas: string, userAnswer: string)
    requires NoLineBreak(respostasValidas)
    ensures IsInfix(AnswersLine(respostasValidas), GradingPrompt(pergunta, respostasValidas, userAnswer))
    ensures IsInfix(respostasValidas, GradingPrompt(pergunta, respostasValidas, userAnswer))
  {
    AnswersPrefixOnOneLine();
    TemplateLineKept(GradingTemplate(pergunta, respostasValidas, userAnswer), 3, AnswersPrefix, respostasValidas, "\".");
  }

  lemma StudentAnswerQuoted(pergunta: string, respostasValidas: string, userAnswer: string)
    requires NoLineBreak(userAnswer)
    ensures IsInfix(StudentLine(userAnswer), GradingPrompt(pergunta, respostasValidas, userAnswer))
    ensures IsInfix(userAnswer, GradingPrompt(pergunta, respostasValidas, userAnswer))
  {
    StudentPrefixOnOneLine();
    TemplateLineKept(GradingTemplate(pergunta, respostasValidas, userAnswer), 4, StudentPrefix, userAnswer, "\".");
  }

  /** Single-line values reach the prompt intact, each on its quoted line. */
  lemma GradingPromptQuotes(pergunta: string, respostasValidas: string, userAnswer: string)
    requires NoLineBreak(pergunta) && NoLineBreak(respostasValidas) && NoLineBreak(userAnswer)
    ensures var prompt := GradingPrompt(pergunta, respostasValidas, userAnswer);
      && IsInfix(QuestionLine(pergunta), prompt)
      && IsInfix(AnswersLine(respostasValidas), prompt)
      && IsInfix(StudentLine(userAnswer), prompt)
      && IsInfix(pergunta, prompt) && IsInfix(respostasValidas, prompt) && IsInfix(userAnswer, prompt)
  {
    QuestionQuoted(pergunta, respostasValidas, userAnswer);
    AnswersQuoted(pergunta, respostasValidas, userAnswer);
    StudentAnswerQuoted(pergunta, respostasValidas, userAnswer);
  }

  // ---------------------------------------------------------------------------
  // The use case

  const NotFound := Failed("Flashcard não encontrado")

  /** The refusal of a card that is not a typed-answer card, naming its type. */
  function NotGradable(t: CardType): Error
  {
    UnsupportedOperation("Validação por IA não suportada para o tipo " + SerialName(t))
  }

  /** The question quoted for a card; a missing one reads "Pergunta não encontrada". */
  function QuestionOf(c: Flashcard): string
    requires c.DigiteResposta?
  {
    c.pergunta.GetOr("Pergunta não encontrada")
  }

  /** The accepted answers quoted for a card, comma-separated; none when missing. */
  function AnswersOf(c: Flashcard): string
    requires c.DigiteResposta?
  {
    Join(c.respostasValidas.GetOr([]), ", ")
  }

  /** What the service's reply becomes: its verdict unchanged, or its failure wrapped
      with the service's message as the cause. */
  function Graded(reply: Result<ValidateAnswerResponse, string>): (r: Result<ValidateAnswerResponse, Error>)
    ensures r.Success? <==> reply.Success?
    ensures reply.Success? ==> r.value == reply.value
    ensures reply.Failure? ==> r.error.Wrapped? && r.error.cause == reply.error
  {
    match reply
    case Success(verdict) => Success(verdict)
    case Failure(e) => Failure(Wrapped("Erro ao validar a resposta com IA: " + e, e))
  }

  /** `execute(deckId, flashcardId, userAnswer)`, with the generative service as `ask`.
      A missing card fails, a card of another shape is refused by its type without
      consulting the service, and a typed-answer card gets the service's verdict on
      the grading prompt built from its question and accepted answers. */
  function Execute(db: Database, deckId: string, flashcardId: string, userAnswer: string,
                   ask: string -> Result<ValidateAnswerResponse, string>): (r: Result<ValidateAnswerResponse, Error>)
    reads db
    ensures FlashcardRepository.FindById(db, deckId, flashcardId).None? ==> r == Failure(NotFound)
    ensures var c := FlashcardRepository.FindById(db, deckId, flashcardId);
      c.Some? && !c.value.DigiteResposta? ==> r == Failure(NotGradable(TypeOf(c.value)))
    ensures var c := FlashcardRepository.FindById(db, deckId, flashcardId);
      c.Some? && c.value.DigiteResposta? ==>
        r == Graded(ask(GradingPrompt(QuestionOf(c.value), AnswersOf(c.value), userAnswer)))
  {
    match FlashcardRepository.FindById(db, deckId, flashcardId)
    case None => Failure(NotFound)
    case Some(c) =>
      if c.DigiteResposta? then
        Graded(ask(GradingPrompt(QuestionOf(c), AnswersOf(c), userAnswer)))
      else
        Failure(NotGradable(TypeOf(c)))
  }

  /** Only typed-answer cards reach the service: for a missing card or any other shape,
      the outcome is the same whatever the service would answer. */
  lemma OnlyTypedAnswersAreGraded(db: Database, deckId: string, flashcardId: string, userAnswer: string,
                                  ask1: string -> Result<ValidateAnswerResponse, string>,
                                  ask2: string -> Result<ValidateAnswerResponse, string>)
    requires var c := FlashcardRepository.FindById(db, deckId, flashcardId); c.None? || !c.value.DigiteResposta?
    ensures Execute(db, deckId, flashcardId, userAnswer, ask1) == Execute(db, deckId, flashcardId, userAnswer, ask2)
    ensures Execute(db, deckId, flashcardId, userAnswer, ask1).Failure?
  {
  }

  /** The grading prompt of a typed-answer card whose texts are on one line quotes its
      question, each of its accepted answers and the student's answer. */
  lemma PromptQuotesCard(c: Flashcard, userAnswer: string)
    requires c.DigiteResposta?
    requires c.pergunta.Some? ==> NoLineBreak(c.pergunta.value)
    requires c.respostasValidas.Some? ==> forall i :: 0 <= i < |c.respostasValidas.value| ==> NoLineBreak(c.respostasValidas.value[i])
    requires NoLineBreak(userAnswer)
    ensures var prompt := GradingPrompt(QuestionOf(c), AnswersOf(c), userAnswer);
      && IsInfix(QuestionOf(c), prompt) && IsInfix(userAnswer, prompt)
      && (forall i :: 0 <= i < |c.respostasValidas.GetOr([])| ==> IsInfix(c.respostasValidas.GetOr([])[i], prompt))
  {
    var answers := c.respostasValidas.GetOr([]);
    JoinNoLineBreak(answers, ", ");
    GradingPromptQuotes(QuestionOf(c), AnswersOf(c), userAnswer);
    JoinElementsInfix(answers, ", ", GradingPrompt(QuestionOf(c), AnswersOf(c), userAnswer));
  }
}
