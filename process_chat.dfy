/** `domain/usecases/ProcessChatResponseUseCase.kt`: one turn of the chat. The user's
    message is stored, the last ten messages are read back as the conversation's
    context, and a fixed reply stands in for the generative service's and is stored
    after it. Failures are swallowed. */
module ProcessChat {
  import opened Wrappers
  import opened Primitives
  import opened Records
  import opened Text
  import opened Store
  import opened ChatRepository

  /** How many messages of the log the context quotes. */
  const HistorySize: Int32 := 10

  /** The sender of the stored reply. */
  const ReplySender := "LLM"

  /** The fixed reply that stands in for the service's. It is one literal in the source;
      the pieces, cut at spaces, keep the prover's string terms short. */
  const ReplyText := "Esta é uma resposta automática " + "da API. A IA está desativada."

  const PromptHeader := "Contexto da conversa:"
  const PromptFooter := "Responda a última mensagem."

  /** One message of the context: "sender: text". */
  function HistoryLine(m: ChatMessage): string
  {
    m.sender + ": " + m.text
  }

  function HistoryLines(history: seq<ChatMessage>): (r: seq<string>)
    ensures |r| == |history|
    ensures forall i :: 0 <= i < |history| ==> r[i] == HistoryLine(history[i])
  {
    seq(|history|, i requires 0 <= i < |history| => HistoryLine(history[i]))
  }

  /** The prompt built from the history: the header, the messages one per line in the
      history's order, an empty line and the closing request. */
  function ChatPrompt(history: seq<ChatMessage>): string
  {
    PromptHeader + "\n" + Join(HistoryLines(history), "\n") + "\n\n" + PromptFooter
  }

  /** When no sender or text holds a line feed, the prompt splits at its line feeds into
      the header, one line per message in order, an empty line and the request. */
  lemma ChatPromptLines(history: seq<ChatMessage>)
    requires |history| >= 1
    requires forall m :: m in history ==> '\n' !in m.sender && '\n' !in m.text
    ensures SplitOn(ChatPrompt(history), '\n') == [PromptHeader] + HistoryLines(history) + ["", PromptFooter]
  {
    var ls := HistoryLines(history);
    var xs := [PromptHeader] + (ls + ["", PromptFooter]);
    JoinAppend(ls, ["", PromptFooter], "\n");
    JoinAppend([PromptHeader], ls + ["", PromptFooter], "\n");
    assert Join(xs, "\n") == ChatPrompt(history);
    forall i | 0 <= i < |xs|
      ensures '\n' !in xs[i]
    {
      if 1 <= i <= |ls| {
        assert xs[i] == HistoryLine(history[i - 1]) && history[i - 1] in history;
      }
    }
    assert [PromptHeader] + HistoryLines(history) + ["", PromptFooter] == xs;
    SplitJoin(xs, '\n');
  }

  /** The prompt's history ends with the message just stored: it is quoted last,
      right before the closing request. */
  lemma PromptEndsWithMessage(log: seq<ChatMessage>, m: ChatMessage)
    ensures EndsWith(ChatPrompt(Latest(log + [m], HistorySize as nat)), HistoryLine(m) + "\n\n" + PromptFooter)
  {
    var h := Latest(log + [m], HistorySize as nat);
    LatestAfterAppend(log, m, HistorySize as nat);
    var ls := HistoryLines(h);
    assert ls[|ls| - 1] == HistoryLine(m);
    JoinEndsWithLast(ls, "\n");
    EndsWithPrepend(PromptHeader + "\n", Join(ls, "\n"), HistoryLine(m));
    EndsWithAppend(PromptHeader + "\n" + Join(ls, "\n"), HistoryLine(m), "\n\n");
    EndsWithAppend(PromptHeader + "\n" + Join(ls, "\n") + "\n\n", HistoryLine(m) + "\n\n", PromptFooter);
  }

  /** Appending a message adds its id to the log's ids. */
  lemma IdsOfAppend(log: seq<ChatMessage>, m: ChatMessage)
    ensures Ids(log + [m]) == Ids(log) + {m.id}
  {
    var l2 := log + [m];
    forall x | x in Ids(l2)
      ensures x in Ids(log) + {m.id}
    {
      var i :| 0 <= i < |l2| && l2[i].id == x;
      if i < |log| {
        assert log[i].id == x;
      }
    }
    forall x | x in Ids(log) + {m.id}
      ensures x in Ids(l2)
    {
      if x == m.id {
        assert l2[|log|].id == x;
      } else {
        var i :| 0 <= i < |log| && log[i].id == x;
        assert l2[i].id == x;
      }
    }
  }

  /** `execute(userId, userMessage)`; `now` is the clock's reading that stamps the
      reply. The user's log grows by the user's message and then the reply, each under
      a fresh key of its own; the `prompt` is built from the last ten messages once the
      user's is stored. Nothing else changes, and no failure escapes. */
  method Execute(db: Database, userId: string, userMessage: ChatMessage, now: Int64)
    returns (ghost prompt: string, ghost userKey: string, ghost replyKey: string)
    requires db.Valid()
    modifies db
    ensures db.Valid()
    ensures userKey != replyKey
    ensures userKey !in Ids(old(Log(db, userId))) && replyKey !in Ids(old(Log(db, userId)))
    ensures Log(db, userId) == old(Log(db, userId)) + [
      userMessage.(id := userKey),
      ChatMessage(replyKey, ReplySender, ReplyText, now)]
    ensures prompt == ChatPrompt(Latest(old(Log(db, userId)) + [userMessage.(id := userKey)], HistorySize as nat))
    ensures forall u :: u != userId ==> Log(db, u) == old(Log(db, u))
    ensures db.decks == old(db.decks) && db.flashcards == old(db.flashcards)
    ensures db.deckUpdates == old(db.deckUpdates)
  {
    ghost var before := Log(db, userId);
    userKey := AddMessage(db, userId, userMessage);
    ghost var afterUser := Log(db, userId);
    var history := GetLatestMessages(db, userId, HistorySize);
    assert history == Success(Latest(afterUser, HistorySize as nat));
    prompt := ChatPrompt(history.value);
    var reply := ChatMessage("", ReplySender, ReplyText, now);
    replyKey := AddMessage(db, userId, reply);
    IdsOfAppend(before, userMessage.(id := userKey));
    AppendTwice(before, userMessage.(id := userKey), reply.(id := replyKey));
  }

  /** Appending two messages one after the other is appending both at once. Stated
      apart so that `Execute` does not weigh sequence concatenation against its whole
      state. */
  lemma AppendTwice(log: seq<ChatMessage>, m1: ChatMessage, m2: ChatMessage)
    ensures log + [m1] + [m2] == log + [m1, m2]
  {
  }

  /** `getChatMessages(userId, limit)`: reads the last `limit` messages and discards
      them, and with them any failure. It changes nothing. */
  method GetChatMessages(db: Database, userId: string, limit: Int32)
    ensures db.chats == old(db.chats) && db.decks == old(db.decks)
    ensures db.flashcards == old(db.flashcards) && db.deckUpdates == old(db.deckUpdates)
  {
    var discarded := GetLatestMessages(db, userId, limit);
  }
}
