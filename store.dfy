/** The document store shared by the three repositories, held in memory: decks
    under `decks/userId/deckId`, raw flashcard records under
    `flashcards/deckId/flashcardId`, and one ordered chat log per user under
    `chats/userId`. Each repository call is one atomic step on it. */
module Store {
  import opened Wrappers
  import opened Primitives
  import opened Records
  import opened FlashCards

  /** A value as the store hands it back in a snapshot (`DataSnapshot.value`). */
  datatype Value =
    | VNull
    | VBool(b: bool)
    | VLong(n: int)
    | VDouble(x: real)
    | VString(s: string)
    | VList(items: seq<Value>)
    | VMap(fields: map<string, Value>)

  /** The address of a flashcard record, as the deck id and the card id. */
  datatype CardPath = CardPath(deckId: string, cardId: string)

  /** The address written out as the update path `/flashcards/deckId/flashcardId`. */
  function PathText(p: CardPath): string
  {
    "/flashcards/" + p.deckId + "/" + p.cardId
  }

  /** One call of the deck repository's partial `update`. */
  datatype DeckUpdate = DeckUpdate(deckId: string, userId: string, updates: map<string, Int64>)

  ghost predicate DistinctIds(log: seq<ChatMessage>)
  {
    forall i, j :: 0 <= i < j < |log| ==> log[i].id != log[j].id
  }

  class Database {
    /** `decks/userId/deckId`. */
    var decks: map<string, map<string, Deck>>
    /** `flashcards/deckId/flashcardId`, as stored values. */
    var flashcards: map<string, map<string, Value>>
    /** `chats/userId`, oldest message first: the store's keys for them increase with
        time, so key order is the order of arrival. */
    var chats: map<string, seq<ChatMessage>>
    /** The partial deck updates issued, in order. */
    var deckUpdates: seq<DeckUpdate>

    /** Every deck is stored under its own id, and no two messages of one chat log
        share an id. */
    ghost predicate Valid()
      reads this
    {
      && (forall u, d :: u in decks && d in decks[u] ==> decks[u][d].id == d)
      && (forall u :: u in chats ==> DistinctIds(chats[u]))
    }

    constructor ()
      ensures Valid()
      ensures decks == map[] && flashcards == map[] && chats == map[]
      ensures deckUpdates == []
    {
      decks := map[];
      flashcards := map[];
      chats := map[];
      deckUpdates := [];
    }
  }

  /** The store's fresh keys (push keys and random UUIDs): a key that is none of
      `used`. */
  method FreshKey(used: set<string>) returns (k: string)
    ensures k !in used
  {
    var n: nat := 0;
    var rest := used;
    while rest != {}
      invariant rest <= used
      invariant forall s :: s in used && s !in rest ==> |s| < n
      decreases |rest|
    {
      var s :| s in rest;
      if |s| >= n {
        n := |s| + 1;
      }
      rest := rest - {s};
    }
    k := seq(n, _ => 'k');
  }

  /** `ks` lists the keys of `m`, each once: the children of a node, in the order the
      store returns them. */
  ghost predicate EnumeratesKeys<V>(ks: seq<string>, m: map<string, V>)
  {
    && (forall k :: k in m <==> k in ks)
    && (forall i, j :: 0 <= i < j < |ks| ==> ks[i] != ks[j])
    && |ks| == |m|
  }

  /** The children of a node, in the order the store returns them. */
  method Children<V>(m: map<string, V>) returns (ks: seq<string>)
    ensures EnumeratesKeys(ks, m)
  {
    ks := [];
    var rest := m.Keys;
    while rest != {}
      invariant rest <= m.Keys
      invariant forall k :: k in m <==> k in ks || k in rest
      invariant forall k :: k in ks ==> k !in rest
      invariant forall i, j :: 0 <= i < j < |ks| ==> ks[i] != ks[j]
      invariant |ks| + |rest| == |m|
      decreases |rest|
    {
      var k :| k in rest;
      ks := ks + [k];
      rest := rest - {k};
    }
  }

  /** The values of the children listed by `ks`, in that order. */
  function ChildValues<V>(m: map<string, V>, ks: seq<string>): (vs: seq<V>)
    requires forall k :: k in ks ==> k in m
    ensures |vs| == |ks|
    ensures forall i :: 0 <= i < |ks| ==> vs[i] == m[ks[i]]
  {
    seq(|ks|, i requires 0 <= i < |ks| => m[ks[i]])
  }

  /** Read in the order of a full listing of the keys, the children are exactly the
      node's values: none is missed and none is made up. */
  lemma ChildValuesListEveryChild<V>(m: map<string, V>, ks: seq<string>)
    requires EnumeratesKeys(ks, m)
    ensures |ChildValues(m, ks)| == |m|
    ensures forall v :: v in ChildValues(m, ks) <==> v in m.Values
  {
    var vs := ChildValues(m, ks);
    forall v | v in m.Values
      ensures v in vs
    {
      var k :| k in m && m[k] == v;
      var i :| 0 <= i < |ks| && ks[i] == k;
      assert vs[i] == v;
    }
  }
}
