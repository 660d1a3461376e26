/** `infrastructure/persistence/FireBaseDeckRepository.kt`: decks live under
    `decks/userId/deckId`, so a deck is only ever seen through its owner's key. */
module DeckRepository {
  import opened Wrappers
  import opened Primitives
  import opened Records
  import opened Store

  /** `findById`: the deck stored under `decks/userId/deckId`. A deck stored under
      another user's key is not found. */
  function FindById(db: Database, deckId: string, userId: string): (r: Option<Deck>)
    reads db
    ensures r.Some? <==> userId in db.decks && deckId in db.decks[userId]
    ensures r.Some? ==> r.value in db.decks[userId].Values
    ensures db.Valid() && r.Some? ==> r.value.id == deckId
  {
    if userId in db.decks && deckId in db.decks[userId] then Some(db.decks[userId][deckId]) else None
  }

  /** A deck is found under the key of the user who holds it and under no other. */
  lemma FindByIdOwnerOnly(db: Database, deckId: string, owner: string, other: string)
    requires owner in db.decks && deckId in db.decks[owner]
    requires other !in db.decks || deckId !in db.decks[other]
    ensures FindById(db, deckId, owner) == Some(db.decks[owner][deckId])
    ensures FindById(db, deckId, other) == None
  {
  }

  /** The decks stored under `userId`. */
  function Node(db: Database, userId: string): map<string, Deck>
    reads db
  {
    if userId in db.decks then db.decks[userId] else map[]
  }

  /** `findByUserId`: every deck stored under the user, once each, in the order the
      store lists the children `order`. */
  method FindByUserId(db: Database, userId: string) returns (r: seq<Deck>, ghost order: seq<string>)
    ensures EnumeratesKeys(order, Node(db, userId))
    ensures |r| == |Node(db, userId)|
    ensures forall i :: 0 <= i < |r| ==> r[i] == Node(db, userId)[order[i]]
    ensures forall d :: d in r <==> d in Node(db, userId).Values
  {
    var node := Node(db, userId);
    var keys := Children(node);
    order := keys;
    r := ChildValues(node, keys);
    ChildValuesListEveryChild(node, keys);
  }

  /** `create`: the deck with only its `id` replaced by a fresh key, stored under the
      caller's key. Its `userId` field is kept as given, whatever the caller. */
  method Create(db: Database, deck: Deck, userId: string) returns (r: Deck)
    requires db.Valid()
    modifies db
    ensures db.Valid()
    ensures r == deck.(id := r.id)
    ensures r.userId == deck.userId
    ensures r.id !in old(Node(db, userId))
    ensures db.decks == old(db.decks)[userId := old(Node(db, userId))[r.id := r]]
    ensures FindById(db, r.id, userId) == Some(r)
    ensures forall u, d :: u != userId ==> FindById(db, d, u) == old(FindById(db, d, u))
    ensures db.flashcards == old(db.flashcards) && db.chats == old(db.chats)
    ensures db.deckUpdates == old(db.deckUpdates)
  {
    var node := Node(db, userId);
    var newId := FreshKey(node.Keys);
    r := deck.(id := newId);
    db.decks := db.decks[userId := node[newId := r]];
  }

  /** `update(deckId, userId, updates)`, declared by the deck repository interface: one
      partial update of the deck's fields, recorded as issued. */
  method Update(db: Database, deckId: string, userId: string, updates: map<string, Int64>)
    modifies db
    ensures db.deckUpdates == old(db.deckUpdates) + [DeckUpdate(deckId, userId, updates)]
    ensures db.decks == old(db.decks) && db.flashcards == old(db.flashcards) && db.chats == old(db.chats)
  {
    db.deckUpdates := db.deckUpdates + [DeckUpdate(deckId, userId, updates)];
  }
}
