/** `infrastructure/persistence/FirebaseChatRepository.kt`: one chat log per user under
    `chats/userId`, read from its end. The store's push keys grow with time, so
    ordering by key is the order of arrival, which the log keeps as its order. */
module ChatRepository {
  import opened Wrappers
  import opened Primitives
  import opened Records
  import opened Store

  /** The user's log, oldest message first; a user with no messages has an empty log. */
  function Log(db: Database, userId: string): seq<ChatMessage>
    reads db
  {
    if userId in db.chats then db.chats[userId] else []
  }

  /** The last `limit` messages of a log, oldest first: `limitToLast(limit)` on a
      key-ordered log. */
  function Latest(log: seq<ChatMessage>, limit: nat): (r: seq<ChatMessage>)
    ensures |r| <= limit && |r| <= |log|
    ensures |r| == limit || r == log
    ensures r == log[|log| - |r|..]
  {
    if limit < |log| then log[|log| - limit..] else log
  }

  /** After one more message, the last `limit` messages are the last `limit - 1` of
      before and then the new one. */
  lemma LatestAfterAppend(log: seq<ChatMessage>, m: ChatMessage, limit: nat)
    requires limit >= 1
    ensures Latest(log + [m], limit) == Latest(log, limit - 1) + [m]
  {
    var l2 := log + [m];
    if limit < |l2| {
      assert l2[|l2| - limit..] == log[|log| - (limit - 1)..] + [m];
    } else {
      assert Latest(log, limit - 1) == log;
    }
  }

  /** The rejection `limitToLast` gives a limit that is not positive. */
  const NonPositiveLimit := IllegalArgument("Limit must be a positive integer!")

  /** `getLatestMessages(userId, limit)`: the last `limit` messages of the user's log,
      oldest first; the query refuses a limit below 1. Reading changes nothing. */
  function GetLatestMessages(db: Database, userId: string, limit: Int32): (r: Result<seq<ChatMessage>, Error>)
    reads db
    ensures limit <= 0 <==> r == Failure(NonPositiveLimit)
    ensures r.Success? ==> |r.value| <= limit as int && |r.value| <= |Log(db, userId)|
    ensures r.Success? ==> r.value == Log(db, userId)[|Log(db, userId)| - |r.value|..]
    ensures r.Success? && |Log(db, userId)| >= limit as int ==> |r.value| == limit as int
  {
    if limit <= 0 then Failure(NonPositiveLimit) else Success(Latest(Log(db, userId), limit as nat))
  }

  /** The ids of a log. */
  function Ids(log: seq<ChatMessage>): set<string>
  {
    set i | 0 <= i < |log| :: log[i].id
  }

  /** `addMessage(userId, message)`: a copy of the message under a fresh push key, with
      that key as its `id` and everything else unchanged, appended to the user's log.
      No other user's log changes. */
  method AddMessage(db: Database, userId: string, message: ChatMessage) returns (ghost key: string)
    requires db.Valid()
    modifies db
    ensures db.Valid()
    ensures key !in Ids(old(Log(db, userId)))
    ensures Log(db, userId) == old(Log(db, userId)) + [message.(id := key)]
    ensures db.chats == old(db.chats)[userId := Log(db, userId)]
    ensures forall u :: u != userId ==> Log(db, u) == old(Log(db, u))
    ensures db.decks == old(db.decks) && db.flashcards == old(db.flashcards)
    ensures db.deckUpdates == old(db.deckUpdates)
  {
    var log := Log(db, userId);
    var newId := FreshKey(Ids(log));
    var messageWithId := message.(id := newId);
    forall i | 0 <= i < |log|
      ensures log[i].id != newId
    {
      assert log[i].id in Ids(log);
    }
    db.chats := db.chats[userId := log + [messageWithId]];
    key := newId;
  }
}
