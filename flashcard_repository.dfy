/** `infrastructure/persistence/FirebaseFlashcardRepository.kt`: the snapshot
    decoder `toFlashcard`, and the repository's `findById`, `findAllByDeckId`,
    `create` and `saveAll`. */
module FlashcardRepository {
  import opened Wrappers
  import opened Primitives
  import opened Records
  import opened FlashCards
  import opened Store

  // ---------------------------------------------------------------------------
  // Reading a snapshot value

  /** `map[key]` on a snapshot map: the value, or `null` when the key is absent. */
  function Get(m: map<string, Value>, key: string): (v: Value)
    ensures key in m ==> v == m[key]
    ensures key !in m ==> v == VNull
  {
    if key in m then m[key] else VNull
  }

  /** `v as? String`. */
  function AsString(v: Value): (r: Option<string>)
    ensures r.Some? <==> v.VString?
    ensures r.Some? ==> r.value == v.s
  {
    match v
    case VString(s) => Some(s)
    case _ => None
  }

  /** `v as? Boolean`. */
  function AsBool(v: Value): (r: Option<bool>)
    ensures r.Some? <==> v.VBool?
    ensures r.Some? ==> r.value == v.b
  {
    match v
    case VBool(b) => Some(b)
    case _ => None
  }

  /** `v as? Map<String, String>`, taken as null unless every value is a string. */
  function AsStringMap(v: Value): (r: Option<map<string, string>>)
    ensures r.Some? ==> v.VMap? && r.value.Keys == v.fields.Keys
    ensures r.Some? ==> forall k :: k in r.value ==> v.fields[k] == VString(r.value[k])
  {
    match v
    case VMap(f) =>
      if forall k :: k in f ==> f[k].VString? then Some(map k | k in f :: f[k].s) else None
    case _ => None
  }

  /** `v as? List<String>`, taken as null unless every element is a string. */
  function AsStringList(v: Value): (r: Option<seq<string>>)
    ensures r.Some? ==> v.VList? && |r.value| == |v.items|
    ensures r.Some? ==> forall i :: 0 <= i < |r.value| ==> v.items[i] == VString(r.value[i])
  {
    match v
    case VList(items) =>
      if forall i :: 0 <= i < |items| ==> items[i].VString?
      then Some(seq(|items|, i requires 0 <= i < |items| && items[i].VString? => items[i].s))
      else None
    case _ => None
  }

  /** One element of `alternativas`: `Alternativa(text = altMap["text"] as? String,
      isCorrect = altMap["isCorrect"] as? Boolean)`. An element that is not a map
      makes the lookup throw, which is `None` here. */
  function DecodeAlternativa(v: Value): Option<Alternativa>
  {
    match v
    case VMap(f) => Some(Alternativa(AsString(Get(f, "text")), AsBool(Get(f, "isCorrect"))))
    case _ => None
  }

  /** `alternativasMap.map { .. }`: element by element, keeping length and order; it
      throws (`None`) as soon as one element is not a map. */
  function DecodeAlternativas(items: seq<Value>): (r: Option<seq<Alternativa>>)
    ensures r.Some? <==> forall i :: 0 <= i < |items| ==> items[i].VMap?
    ensures r.Some? ==> |r.value| == |items|
    ensures r.Some? ==> forall i :: 0 <= i < |items| ==> DecodeAlternativa(items[i]) == Some(r.value[i])
  {
    if items == [] then Some([])
    else
      match (DecodeAlternativa(items[0]), DecodeAlternativas(items[1..]))
      case (Some(a), Some(rest)) => Some([a] + rest)
      case _ => None
  }

  /** The variant named by the record's `"type"` key, if it names one. */
  function DeclaredType(v: Value): Option<CardType>
  {
    match v
    case VMap(m) =>
      (match AsString(Get(m, "type"))
       case Some(s) => ParseSerialName(s)
       case None => None)
    case _ => None
  }

  /** `DataSnapshot.toFlashcard()`: dispatch on the `"type"` key, read the identity and
      payload keys with safe casts, and return null for anything else. The
      bookkeeping keys are never read. */
  function ToFlashcard(v: Value): (r: Option<Flashcard>)
    ensures !v.VMap? ==> r == None
    ensures DeclaredType(v).None? ==> r == None
    ensures r.Some? ==> DeclaredType(v) == Some(TypeOf(r.value))
    ensures DeclaredType(v).Some? && DeclaredType(v) != Some(MultiplaEscolhaType) ==> r.Some?
    ensures v.VMap? && DeclaredType(v) == Some(MultiplaEscolhaType) ==>
      (r.Some? <==>
        !Get(v.fields, "alternativas").VList? ||
        forall i :: 0 <= i < |Get(v.fields, "alternativas").items| ==> Get(v.fields, "alternativas").items[i].VMap?)
    ensures r.Some? ==> HasDefaultBookkeeping(r.value)
    ensures r.Some? ==>
      IdentityOf(r.value) == Identity(AsString(Get(v.fields, "id")), AsString(Get(v.fields, "deckId")), AsString(Get(v.fields, "userId")))
  {
    match v
    case VMap(m) =>
      var id := AsString(Get(m, "id"));
      var deckId := AsString(Get(m, "deckId"));
      var userId := AsString(Get(m, "userId"));
      var tag := AsString(Get(m, "type"));
      if tag == Some("FRENTE_VERSO") then
        Some(FrenteVerso(id := id, deckId := deckId, userId := userId,
                         frente := AsString(Get(m, "frente")), verso := AsString(Get(m, "verso"))))
      else if tag == Some("CLOZE") then
        Some(Cloze(id := id, deckId := deckId, userId := userId,
                   textoComLacunas := AsString(Get(m, "textoComLacunas")),
                   respostasCloze := AsStringMap(Get(m, "respostasCloze"))))
      else if tag == Some("DIGITE_RESPOSTA") then
        Some(DigiteResposta(id := id, deckId := deckId, userId := userId,
                            pergunta := AsString(Get(m, "pergunta")),
                            respostasValidas := AsStringList(Get(m, "respostasValidas"))))
      else if tag == Some("MULTIPLA_ESCOLHA") then
        var alternativas :=
          match Get(m, "alternativas")
          case VList(items) => (match DecodeAlternativas(items)
                                case Some(alts) => Success(Some(alts))
                                case None => Failure(()))
          case _ => Success(None);
        (match alternativas
         case Success(alts) =>
           Some(MultiplaEscolha(id := id, deckId := deckId, userId := userId,
                                pergunta := AsString(Get(m, "pergunta")), alternativas := alts,
                                respostaCorreta := AsString(Get(m, "respostaCorreta"))))
         case Failure(_) => None)
      else None
    case _ => None
  }

  /** Each decoded payload field is the value stored under the field's own name, read
      with a safe cast (null when missing or of another type). */
  lemma DecodedPayload(m: map<string, Value>, c: Flashcard)
    requires ToFlashcard(VMap(m)) == Some(c)
    ensures c.FrenteVerso? ==> c.frente == AsString(Get(m, "frente")) && c.verso == AsString(Get(m, "verso"))
    ensures c.Cloze? ==>
      c.textoComLacunas == AsString(Get(m, "textoComLacunas")) && c.respostasCloze == AsStringMap(Get(m, "respostasCloze"))
    ensures c.DigiteResposta? ==>
      c.pergunta == AsString(Get(m, "pergunta")) && c.respostasValidas == AsStringList(Get(m, "respostasValidas"))
    ensures c.MultiplaEscolha? ==>
      c.pergunta == AsString(Get(m, "pergunta")) && c.respostaCorreta == AsString(Get(m, "respostaCorreta"))
    ensures c.MultiplaEscolha? ==>
      if Get(m, "alternativas").VList? then c.alternativas == DecodeAlternativas(Get(m, "alternativas").items)
      else c.alternativas == None
  {
  }

  /** A multiple-choice record whose `alternativas` list holds something other than a
      map is not decoded at all: the cast failure is caught and yields null. */
  lemma BadAlternativeRejectsCard(m: map<string, Value>, i: nat)
    requires Get(m, "type") == VString("MULTIPLA_ESCOLHA")
    requires Get(m, "alternativas").VList? && i < |Get(m, "alternativas").items|
    requires !Get(m, "alternativas").items[i].VMap?
    ensures ToFlashcard(VMap(m)) == None
  {
  }

  // ---------------------------------------------------------------------------
  // The record layout the decoder reads

  /** `m` with `key` set to `x`, or `m` unchanged when `x` is null. */
  function PutValue(m: map<string, Value>, key: string, x: Option<Value>): map<string, Value>
  {
    match x
    case Some(v) => m[key := v]
    case None => m
  }

  function StringValue(x: Option<string>): Option<Value>
  {
    match x
    case Some(s) => Some(VString(s))
    case None => None
  }

  function AlternativaRecord(a: Alternativa): Value
  {
    VMap(PutValue(PutValue(map[], "text", StringValue(a.text)), "isCorrect",
                  match a.isCorrect case Some(b) => Some(VBool(b)) case None => None))
  }

  function StringMapValue(rs: map<string, string>): Value
  {
    VMap(map k | k in rs :: VString(rs[k]))
  }

  function StringListValue(rs: seq<string>): Value
  {
    VList(seq(|rs|, i requires 0 <= i < |rs| => VString(rs[i])))
  }

  function AlternativasValue(alts: seq<Alternativa>): Value
  {
    VList(seq(|alts|, i requires 0 <= i < |alts| => AlternativaRecord(alts[i])))
  }

  function OptionValue<T>(x: Option<T>, f: T -> Value): Option<Value>
  {
    match x
    case Some(t) => Some(f(t))
    case None => None
  }

  /** The bookkeeping keys, on top of `base`. */
  function BookkeepingRecord(b: Bookkeeping, base: map<string, Value>): map<string, Value>
  {
    base["fatorFacilidade" := VDouble(b.fatorFacilidade.GetOr(2.5))]
        ["repeticoes" := VLong(b.repeticoes.GetOr(0) as int)]
        ["intervaloEmDias" := VLong(b.intervaloEmDias.GetOr(1) as int)]
        ["proximaRevisaoTimestamp" := VLong(b.proximaRevisaoTimestamp.GetOr(0) as int)]
  }

  /** The identity keys, on top of `base`. */
  function IdentityRecord(i: Identity, base: map<string, Value>): map<string, Value>
  {
    PutValue(PutValue(PutValue(base, "id", StringValue(i.id)), "deckId", StringValue(i.deckId)),
             "userId", StringValue(i.userId))
  }

  /** The keys every variant stores: the discriminator, the bookkeeping and the
      identity. */
  function SharedRecord(c: Flashcard): map<string, Value>
  {
    IdentityRecord(IdentityOf(c), BookkeepingRecord(BookkeepingOf(c), map["type" := VString(SerialName(TypeOf(c)))]))
  }

  /** The variant-specific keys, each under the field's own name, on top of `base`. */
  function PayloadRecord(p: Payload, base: map<string, Value>): map<string, Value>
  {
    match p
    case FrenteVersoPayload(frente, verso) =>
      PutValue(PutValue(base, "frente", StringValue(frente)), "verso", StringValue(verso))
    case ClozePayload(texto, respostas) =>
      PutValue(PutValue(base, "textoComLacunas", StringValue(texto)),
               "respostasCloze", OptionValue(respostas, StringMapValue))
    case DigiteRespostaPayload(pergunta, respostas) =>
      PutValue(PutValue(base, "pergunta", StringValue(pergunta)),
               "respostasValidas", OptionValue(respostas, StringListValue))
    case MultiplaEscolhaPayload(pergunta, alternativas, correta) =>
      PutValue(PutValue(PutValue(base, "pergunta", StringValue(pergunta)), "respostaCorreta", StringValue(correta)),
               "alternativas", OptionValue(alternativas, AlternativasValue))
  }

  /** A stored record for `c`: the `"type"` discriminator and every non-null field under
      its own name, the bookkeeping fields included. */
  function RecordOf(c: Flashcard): Value
  {
    VMap(PayloadRecord(PayloadOf(c), SharedRecord(c)))
  }

  lemma {:induction false} DecodeAlternativaRecords(alts: seq<Alternativa>)
    ensures DecodeAlternativas(AlternativasValue(alts).items) == Some(alts)
  {
    var items := AlternativasValue(alts).items;
    if alts != [] {
      DecodeAlternativaRecords(alts[1..]);
      assert items[1..] == AlternativasValue(alts[1..]).items;
      AlternativaRecordReads(alts[0]);
      assert items[0] == AlternativaRecord(alts[0]);
      assert [alts[0]] + alts[1..] == alts;
    }
  }

  /** One alternative's record reads back as that alternative. */
  lemma AlternativaRecordReads(a: Alternativa)
    ensures DecodeAlternativa(AlternativaRecord(a)) == Some(a)
  {
    var x := match a.isCorrect case Some(b) => Some(VBool(b)) case None => None;
    var m1 := PutValue(map[], "text", StringValue(a.text));
    GetPut(map[], "text", StringValue(a.text), "text");
    GetPut(map[], "text", StringValue(a.text), "isCorrect");
    GetPut(m1, "isCorrect", x, "text");
    GetPut(m1, "isCorrect", x, "isCorrect");
  }

  lemma StringMapRecord(rs: map<string, string>)
    ensures AsStringMap(StringMapValue(rs)) == Some(rs)
  {
    var f := StringMapValue(rs).fields;
    assert (map k | k in f :: f[k].s) == rs;
  }

  lemma StringListRecord(rs: seq<string>)
    ensures AsStringList(StringListValue(rs)) == Some(rs)
  {
    var items := StringListValue(rs).items;
    assert seq(|items|, i requires 0 <= i < |items| && items[i].VString? => items[i].s) == rs;
  }

  lemma BookkeepingRecordReads(b: Bookkeeping, t: string)
    ensures Get(BookkeepingRecord(b, map["type" := VString(t)]), "type") == VString(t)
    ensures Get(BookkeepingRecord(b, map["type" := VString(t)]), "id") == VNull
    ensures Get(BookkeepingRecord(b, map["type" := VString(t)]), "deckId") == VNull
    ensures Get(BookkeepingRecord(b, map["type" := VString(t)]), "userId") == VNull
    ensures NoPayloadKeys(BookkeepingRecord(b, map["type" := VString(t)]))
  {
  }

  lemma IdentityRecordReads(i: Identity, base: map<string, Value>)
    requires Get(base, "id") == VNull && Get(base, "deckId") == VNull && Get(base, "userId") == VNull
    ensures AsString(Get(IdentityRecord(i, base), "id")) == i.id
    ensures AsString(Get(IdentityRecord(i, base), "deckId")) == i.deckId
    ensures AsString(Get(IdentityRecord(i, base), "userId")) == i.userId
    ensures Get(IdentityRecord(i, base), "type") == Get(base, "type")
    ensures NoPayloadKeys(base) ==> NoPayloadKeys(IdentityRecord(i, base))
  {
    var m1 := PutValue(base, "id", StringValue(i.id));
    var m2 := PutValue(m1, "deckId", StringValue(i.deckId));
    GetPut(base, "id", StringValue(i.id), "id");
    GetPut(m1, "deckId", StringValue(i.deckId), "id");
    GetPut(m1, "deckId", StringValue(i.deckId), "deckId");
    GetPut(m2, "userId", StringValue(i.userId), "id");
    GetPut(m2, "userId", StringValue(i.userId), "deckId");
    GetPut(m2, "userId", StringValue(i.userId), "userId");
    IdentityKeepsNoPayload(i, base);
  }

  /** The identity keys are none of the payload keys. */
  lemma IdentityKeepsNoPayload(i: Identity, base: map<string, Value>)
    ensures NoPayloadKeys(base) ==> NoPayloadKeys(IdentityRecord(i, base))
    ensures Get(IdentityRecord(i, base), "type") == Get(base, "type")
  {
  }

  /** The shared keys of a record read back as the card's identity and discriminator,
      and it holds none of the payload keys. */
  lemma SharedRecordFields(c: Flashcard)
    ensures AsString(Get(SharedRecord(c), "id")) == c.id
    ensures AsString(Get(SharedRecord(c), "deckId")) == c.deckId
    ensures AsString(Get(SharedRecord(c), "userId")) == c.userId
    ensures AsString(Get(SharedRecord(c), "type")) == Some(SerialName(TypeOf(c)))
    ensures NoPayloadKeys(SharedRecord(c))
  {
    var base := BookkeepingRecord(BookkeepingOf(c), map["type" := VString(SerialName(TypeOf(c)))]);
    BookkeepingRecordReads(BookkeepingOf(c), SerialName(TypeOf(c)));
    IdentityRecordReads(IdentityOf(c), base);
  }

  /** `base` holds none of the variant-specific keys. */
  predicate NoPayloadKeys(base: map<string, Value>)
  {
    && Get(base, "frente") == VNull && Get(base, "verso") == VNull
    && Get(base, "textoComLacunas") == VNull && Get(base, "respostasCloze") == VNull
    && Get(base, "pergunta") == VNull && Get(base, "respostasValidas") == VNull
    && Get(base, "respostaCorreta") == VNull && Get(base, "alternativas") == VNull
  }

  /** `m` reads the four shared keys as `base` does. */
  predicate SameShared(m: map<string, Value>, base: map<string, Value>)
  {
    && Get(m, "id") == Get(base, "id")
    && Get(m, "deckId") == Get(base, "deckId")
    && Get(m, "userId") == Get(base, "userId")
    && Get(m, "type") == Get(base, "type")
  }

  /** The payload part leaves the shared keys as they are and reads back as the
      payload, whatever the base holds besides. */
  lemma PayloadRecordReads(p: Payload, base: map<string, Value>)
    requires NoPayloadKeys(base)
    ensures SameShared(PayloadRecord(p, base), base)
    ensures p.FrenteVersoPayload? ==> AsString(Get(PayloadRecord(p, base), "frente")) == p.frente
    ensures p.FrenteVersoPayload? ==> AsString(Get(PayloadRecord(p, base), "verso")) == p.verso
    ensures p.ClozePayload? ==> AsString(Get(PayloadRecord(p, base), "textoComLacunas")) == p.textoComLacunas
    ensures p.ClozePayload? ==> AsStringMap(Get(PayloadRecord(p, base), "respostasCloze")) == p.respostasCloze
    ensures p.DigiteRespostaPayload? ==> AsString(Get(PayloadRecord(p, base), "pergunta")) == p.pergunta
    ensures p.DigiteRespostaPayload? ==> AsStringList(Get(PayloadRecord(p, base), "respostasValidas")) == p.respostasValidas
    ensures p.MultiplaEscolhaPayload? ==> AsString(Get(PayloadRecord(p, base), "pergunta")) == p.pergunta
    ensures p.MultiplaEscolhaPayload? ==> AsString(Get(PayloadRecord(p, base), "respostaCorreta")) == p.respostaCorreta
    ensures p.MultiplaEscolhaPayload? && p.alternativas.None? ==> Get(PayloadRecord(p, base), "alternativas") == VNull
    ensures p.MultiplaEscolhaPayload? && p.alternativas.Some? ==>
      Get(PayloadRecord(p, base), "alternativas") == AlternativasValue(p.alternativas.value)
  {
    match p
    case FrenteVersoPayload(frente, verso) => FrenteVersoRecordReads(frente, verso, base);
    case ClozePayload(texto, respostas) => ClozeRecordReads(texto, respostas, base);
    case DigiteRespostaPayload(pergunta, respostas) => DigiteRespostaRecordReads(pergunta, respostas, base);
    case MultiplaEscolhaPayload(pergunta, alternativas, correta) =>
      MultiplaEscolhaRecordReads(pergunta, alternativas, correta, base);
  }

  /** `PutValue` changes at most the one key it writes. */
  lemma GetPut(m: map<string, Value>, key: string, x: Option<Value>, other: string)
    ensures Get(PutValue(m, key, x), other) == if other == key && x.Some? then x.value else Get(m, other)
  {
  }

  lemma FrenteVersoRecordReads(frente: Option<string>, verso: Option<string>, base: map<string, Value>)
    requires NoPayloadKeys(base)
    ensures SameShared(PayloadRecord(FrenteVersoPayload(frente, verso), base), base)
    ensures AsString(Get(PayloadRecord(FrenteVersoPayload(frente, verso), base), "frente")) == frente
    ensures AsString(Get(PayloadRecord(FrenteVersoPayload(frente, verso), base), "verso")) == verso
  {
    var m1 := PutValue(base, "frente", StringValue(frente));
    GetPut(base, "frente", StringValue(frente), "frente");
    GetPut(m1, "verso", StringValue(verso), "frente");
    GetPut(m1, "verso", StringValue(verso), "verso");
  }

  lemma ClozeRecordReads(texto: Option<string>, respostas: Option<map<string, string>>, base: map<string, Value>)
    requires NoPayloadKeys(base)
    ensures SameShared(PayloadRecord(ClozePayload(texto, respostas), base), base)
    ensures AsString(Get(PayloadRecord(ClozePayload(texto, respostas), base), "textoComLacunas")) == texto
    ensures AsStringMap(Get(PayloadRecord(ClozePayload(texto, respostas), base), "respostasCloze")) == respostas
  {
    var m1 := PutValue(base, "textoComLacunas", StringValue(texto));
    var x := OptionValue(respostas, StringMapValue);
    GetPut(base, "textoComLacunas", StringValue(texto), "textoComLacunas");
    GetPut(base, "textoComLacunas", StringValue(texto), "respostasCloze");
    GetPut(m1, "respostasCloze", x, "textoComLacunas");
    GetPut(m1, "respostasCloze", x, "respostasCloze");
    if respostas.Some? { StringMapRecord(respostas.value); }
  }

  lemma DigiteRespostaRecordReads(pergunta: Option<string>, respostas: Option<seq<string>>, base: map<string, Value>)
    requires NoPayloadKeys(base)
    ensures SameShared(PayloadRecord(DigiteRespostaPayload(pergunta, respostas), base), base)
    ensures AsString(Get(PayloadRecord(DigiteRespostaPayload(pergunta, respostas), base), "pergunta")) == pergunta
    ensures AsStringList(Get(PayloadRecord(DigiteRespostaPayload(pergunta, respostas), base), "respostasValidas")) == respostas
  {
    var m1 := PutValue(base, "pergunta", StringValue(pergunta));
    var x := OptionValue(respostas, StringListValue);
    GetPut(base, "pergunta", StringValue(pergunta), "pergunta");
    GetPut(base, "pergunta", StringValue(pergunta), "respostasValidas");
    GetPut(m1, "respostasValidas", x, "pergunta");
    GetPut(m1, "respostasValidas", x, "respostasValidas");
    if respostas.Some? { StringListRecord(respostas.value); }
  }

  lemma MultiplaEscolhaRecordReads(pergunta: Option<string>, alternativas: Option<seq<Alternativa>>,
                                   correta: Option<string>, base: map<string, Value>)
    requires NoPayloadKeys(base)
    ensures SameShared(PayloadRecord(MultiplaEscolhaPayload(pergunta, alternativas, correta), base), base)
    ensures AsString(Get(PayloadRecord(MultiplaEscolhaPayload(pergunta, alternativas, correta), base), "pergunta")) == pergunta
    ensures AsString(Get(PayloadRecord(MultiplaEscolhaPayload(pergunta, alternativas, correta), base), "respostaCorreta")) == correta
    ensures alternativas.None? ==>
      Get(PayloadRecord(MultiplaEscolhaPayload(pergunta, alternativas, correta), base), "alternativas") == VNull
    ensures alternativas.Some? ==>
      Get(PayloadRecord(MultiplaEscolhaPayload(pergunta, alternativas, correta), base), "alternativas")
        == AlternativasValue(alternativas.value)
  {
    var m1 := PutValue(base, "pergunta", StringValue(pergunta));
    var m2 := PutValue(m1, "respostaCorreta", StringValue(correta));
    var x := OptionValue(alternativas, AlternativasValue);
    GetPut(base, "pergunta", StringValue(pergunta), "pergunta");
    GetPut(base, "pergunta", StringValue(pergunta), "respostaCorreta");
    GetPut(base, "pergunta", StringValue(pergunta), "alternativas");
    GetPut(m1, "respostaCorreta", StringValue(correta), "pergunta");
    GetPut(m1, "respostaCorreta", StringValue(correta), "respostaCorreta");
    GetPut(m1, "respostaCorreta", StringValue(correta), "alternativas");
    GetPut(m2, "alternativas", x, "pergunta");
    GetPut(m2, "alternativas", x, "respostaCorreta");
    GetPut(m2, "alternativas", x, "alternativas");
  }

  /** What the decoder makes of a map, given what its lookups read, per variant. */
  lemma DecodeFrenteVerso(m: map<string, Value>, i: Identity, frente: Option<string>, verso: Option<string>)
    requires AsString(Get(m, "type")) == Some("FRENTE_VERSO")
    requires Identity(AsString(Get(m, "id")), AsString(Get(m, "deckId")), AsString(Get(m, "userId"))) == i
    requires AsString(Get(m, "frente")) == frente && AsString(Get(m, "verso")) == verso
    ensures ToFlashcard(VMap(m)) == Some(Assemble(i, DefaultBookkeeping, FrenteVersoPayload(frente, verso)))
  {
  }

  lemma DecodeCloze(m: map<string, Value>, i: Identity, texto: Option<string>, respostas: Option<map<string, string>>)
    requires AsString(Get(m, "type")) == Some("CLOZE")
    requires Identity(AsString(Get(m, "id")), AsString(Get(m, "deckId")), AsString(Get(m, "userId"))) == i
    requires AsString(Get(m, "textoComLacunas")) == texto && AsStringMap(Get(m, "respostasCloze")) == respostas
    ensures ToFlashcard(VMap(m)) == Some(Assemble(i, DefaultBookkeeping, ClozePayload(texto, respostas)))
  {
  }

  lemma DecodeDigiteResposta(m: map<string, Value>, i: Identity, pergunta: Option<string>, respostas: Option<seq<string>>)
    requires AsString(Get(m, "type")) == Some("DIGITE_RESPOSTA")
    requires Identity(AsString(Get(m, "id")), AsString(Get(m, "deckId")), AsString(Get(m, "userId"))) == i
    requires AsString(Get(m, "pergunta")) == pergunta && AsStringList(Get(m, "respostasValidas")) == respostas
    ensures ToFlashcard(VMap(m)) == Some(Assemble(i, DefaultBookkeeping, DigiteRespostaPayload(pergunta, respostas)))
  {
  }

  lemma DecodeMultiplaEscolha(m: map<string, Value>, i: Identity, pergunta: Option<string>,
                              alternativas: Option<seq<Alternativa>>, correta: Option<string>)
    requires AsString(Get(m, "type")) == Some("MULTIPLA_ESCOLHA")
    requires Identity(AsString(Get(m, "id")), AsString(Get(m, "deckId")), AsString(Get(m, "userId"))) == i
    requires AsString(Get(m, "pergunta")) == pergunta && AsString(Get(m, "respostaCorreta")) == correta
    requires alternativas.None? ==> Get(m, "alternativas") == VNull
    requires alternativas.Some? ==> Get(m, "alternativas") == AlternativasValue(alternativas.value)
    ensures ToFlashcard(VMap(m)) == Some(Assemble(i, DefaultBookkeeping, MultiplaEscolhaPayload(pergunta, alternativas, correta)))
  {
    if alternativas.Some? {
      DecodeAlternativaRecords(alternativas.value);
    }
  }

  /** Decoding a record gives the card back with its variant, identity and payload,
      but with the default bookkeeping whatever the record held. */
  lemma DecodeRecordOf(c: Flashcard)
    ensures ToFlashcard(RecordOf(c)) == Some(Assemble(IdentityOf(c), DefaultBookkeeping, PayloadOf(c)))
  {
    var base := SharedRecord(c);
    var p := PayloadOf(c);
    var m := PayloadRecord(p, base);
    var i := IdentityOf(c);
    SharedRecordFields(c);
    PayloadRecordReads(p, base);
    assert Identity(AsString(Get(m, "id")), AsString(Get(m, "deckId")), AsString(Get(m, "userId"))) == i;
    assert AsString(Get(m, "type")) == Some(SerialName(TypeOf(c)));
    match p
    case FrenteVersoPayload(frente, verso) => DecodeFrenteVerso(m, i, frente, verso);
    case ClozePayload(texto, respostas) => DecodeCloze(m, i, texto, respostas);
    case DigiteRespostaPayload(pergunta, respostas) => DecodeDigiteResposta(m, i, pergunta, respostas);
    case MultiplaEscolhaPayload(pergunta, alternativas, correta) =>
      DecodeMultiplaEscolha(m, i, pergunta, alternativas, correta);
  }

  /** A record whose `"type"` is none of the four discriminators is rejected, never read
      as some default variant. */
  lemma UnknownTagRejected(c: Flashcard, tag: string)
    requires ParseSerialName(tag).None?
    ensures ToFlashcard(VMap(RecordOf(c).fields["type" := VString(tag)])) == None
  {
  }

  // ---------------------------------------------------------------------------
  // Lists of snapshots

  /** `children.mapNotNull { it.toFlashcard() }`. */
  function DecodeAll(vs: seq<Value>): (r: seq<Flashcard>)
    ensures |r| <= |vs|
    ensures forall c :: c in r ==> HasDefaultBookkeeping(c)
    ensures forall i :: 0 <= i < |vs| && ToFlashcard(vs[i]).Some? ==> ToFlashcard(vs[i]).value in r
    ensures forall c :: c in r ==> exists i :: 0 <= i < |vs| && ToFlashcard(vs[i]) == Some(c)
  {
    if vs == [] then []
    else
      var rest := DecodeAll(vs[1..]);
      assert forall i :: 1 <= i < |vs| ==> vs[i] == vs[1..][i - 1];
      match ToFlashcard(vs[0])
      case Some(c) => [c] + rest
      case None => rest
  }

  /** Decoding keeps the order of the children: the decoding of two lists one after the
      other is the two decodings one after the other. */
  lemma {:induction false} DecodeAllAppend(a: seq<Value>, b: seq<Value>)
    ensures DecodeAll(a + b) == DecodeAll(a) + DecodeAll(b)
  {
    if a != [] {
      assert (a + b)[1..] == a[1..] + b;
      DecodeAllAppend(a[1..], b);
    } else {
      assert a + b == b;
    }
  }

  // ---------------------------------------------------------------------------
  // The repository

  /** `findById`: the decoded record at `flashcards/deckId/flashcardId`; an absent
      record reads as a null value, which does not decode. */
  function FindById(db: Database, deckId: string, flashcardId: string): (r: Option<Flashcard>)
    reads db
    ensures deckId in db.flashcards && flashcardId in db.flashcards[deckId] ==>
      r == ToFlashcard(db.flashcards[deckId][flashcardId])
    ensures !(deckId in db.flashcards && flashcardId in db.flashcards[deckId]) ==> r == None
    ensures r.Some? ==> HasDefaultBookkeeping(r.value)
  {
    if deckId in db.flashcards && flashcardId in db.flashcards[deckId]
    then ToFlashcard(db.flashcards[deckId][flashcardId])
    else None
  }

  /** The ownership check of `findAllByDeckId`: `decks/userId/deckId` exists. */
  predicate IsOwner(db: Database, deckId: string, userId: string)
    reads db
  {
    userId in db.decks && deckId in db.decks[userId]
  }

  /** `r` is what `findAllByDeckId` returns when the store lists the deck's children in
      the order `order`. */
  ghost predicate IsListing(db: Database, deckId: string, userId: string, r: seq<Flashcard>, order: seq<string>)
    reads db
  {
    if !IsOwner(db, deckId, userId) || deckId !in db.flashcards then r == [] && order == []
    else EnumeratesKeys(order, db.flashcards[deckId]) && r == DecodeAll(ChildValues(db.flashcards[deckId], order))
  }

  /** `findAllByDeckId`: nothing unless the caller owns the deck; otherwise the
      decodable children of `flashcards/deckId`, in the store's order. */
  method FindAllByDeckId(db: Database, deckId: string, userId: string) returns (r: seq<Flashcard>, ghost order: seq<string>)
    ensures IsListing(db, deckId, userId, r, order)
    ensures !IsOwner(db, deckId, userId) ==> r == []
    ensures |r| <= if deckId in db.flashcards then |db.flashcards[deckId]| else 0
    ensures forall c :: c in r ==> HasDefaultBookkeeping(c)
  {
    if !IsOwner(db, deckId, userId) {
      return [], [];
    }
    if deckId !in db.flashcards {
      return [], [];
    }
    var node := db.flashcards[deckId];
    var keys := Children(node);
    order := keys;
    r := DecodeAll(ChildValues(node, keys));
  }

  /** `create`: the card with a fresh `id` and the given `deckId` and `userId`, variant,
      payload and bookkeeping unchanged. Nothing is written. */
  method Create(db: Database, deckId: string, userId: string, flashcard: Flashcard) returns (r: Flashcard)
    ensures IdentityOf(r).deckId == Some(deckId) && IdentityOf(r).userId == Some(userId)
    ensures r.id.Some? && (deckId in db.flashcards ==> r.id.value !in db.flashcards[deckId])
    ensures TypeOf(r) == TypeOf(flashcard) && PayloadOf(r) == PayloadOf(flashcard)
    ensures BookkeepingOf(r) == BookkeepingOf(flashcard)
  {
    var used := if deckId in db.flashcards then db.flashcards[deckId].Keys else {};
    var newId := FreshKey(used);
    r := WithIdentity(flashcard, Some(newId), Some(deckId), Some(userId));
  }

  // ---------------------------------------------------------------------------
  // saveAll

  const DeckIdIsNull := IllegalArgument("O deckId não pode ser nulo.")
  const IdIsNull := IllegalArgument("O id não pode ser nulo.")

  predicate HasPath(c: Flashcard)
  {
    c.deckId.Some? && c.id.Some?
  }

  function PathOf(c: Flashcard): CardPath
    requires HasPath(c)
  {
    CardPath(c.deckId.value, c.id.value)
  }

  /** The key `saveAll` files a card under: its update path written out. */
  function UpdatePath(c: Flashcard): string
    requires HasPath(c)
  {
    PathText(PathOf(c))
  }

  /** `c` is filed under the update path `p`. */
  predicate AtPath(c: Flashcard, p: string)
  {
    HasPath(c) && UpdatePath(c) == p
  }

  /** The index of the last card filed under `p`, or -1 when there is none. */
  function LastAt(cards: seq<Flashcard>, p: string): (k: int)
    ensures -1 <= k < |cards|
    ensures k >= 0 ==> AtPath(cards[k], p)
    ensures forall j :: k < j < |cards| ==> !AtPath(cards[j], p)
  {
    if cards == [] then -1
    else if AtPath(cards[|cards| - 1], p) then |cards| - 1
    else LastAt(cards[..|cards| - 1], p)
  }

  /** The batch `saveAll` builds, card by card in list order: it throws at the first
      card without a `deckId` (checked first) or without an `id`, and otherwise maps
      each card's update path to the card, a later card replacing an earlier one. */
  function BatchOf(cards: seq<Flashcard>): Result<map<string, Flashcard>, Error>
  {
    if cards == [] then Success(map[])
    else
      var last := cards[|cards| - 1];
      match BatchOf(cards[..|cards| - 1])
      case Failure(e) => Failure(e)
      case Success(b) =>
        if last.deckId.None? then Failure(DeckIdIsNull)
        else if last.id.None? then Failure(IdIsNull)
        else Success(b[UpdatePath(last) := last])
  }

  /** The batch fails exactly when some card lacks a path, with the message for the
      first such card; otherwise it has one entry per distinct update path, holding the
      last card filed under it. */
  lemma {:induction false} BatchOfSpec(cards: seq<Flashcard>)
    ensures BatchOf(cards).Success? <==> forall i :: 0 <= i < |cards| ==> HasPath(cards[i])
    ensures forall i :: 0 <= i < |cards| && !HasPath(cards[i]) && (forall j :: 0 <= j < i ==> HasPath(cards[j])) ==>
      BatchOf(cards) == Failure(if cards[i].deckId.None? then DeckIdIsNull else IdIsNull)
    ensures BatchOf(cards).Success? ==>
      forall p :: (p in BatchOf(cards).value <==> LastAt(cards, p) >= 0)
    ensures BatchOf(cards).Success? ==>
      forall p :: p in BatchOf(cards).value ==> BatchOf(cards).value[p] == cards[LastAt(cards, p)]
  {
    if cards != [] {
      var init := cards[..|cards| - 1];
      BatchOfSpec(init);
      assert forall i :: 0 <= i < |init| ==> init[i] == cards[i];
    }
  }

  /** A failure in a prefix is the failure of the whole list. */
  lemma {:induction false} BatchOfFailureStays(cards: seq<Flashcard>, n: nat)
    requires n <= |cards|
    requires BatchOf(cards[..n]).Failure?
    ensures BatchOf(cards) == BatchOf(cards[..n])
    decreases |cards| - n
  {
    if n < |cards| {
      assert cards[..n + 1][..n] == cards[..n];
      BatchOfFailureStays(cards, n + 1);
    } else {
      assert cards[..n] == cards;
    }
  }

  /** Every entry of `batch` is filed under its own update path. */
  predicate WellKeyed(batch: map<string, Flashcard>)
  {
    forall p :: p in batch ==> AtPath(batch[p], p)
  }

  lemma BatchWellKeyed(cards: seq<Flashcard>)
    requires BatchOf(cards).Success?
    ensures WellKeyed(BatchOf(cards).value)
  {
    BatchOfSpec(cards);
  }

  /** Two cards with different deck ids and card ids whose update paths read alike
      share one entry of the batch, and the later one wins. */
  lemma SlashedIdsShareAnEntry()
    ensures var a := FrenteVerso(id := Some("1"), deckId := Some("d/x"));
            var b := FrenteVerso(id := Some("x/1"), deckId := Some("d"));
            PathOf(a) != PathOf(b) && BatchOf([a, b]) == Success(map["/flashcards/d/x/1" := b])
  {
    var a := FrenteVerso(id := Some("1"), deckId := Some("d/x"));
    var b := FrenteVerso(id := Some("x/1"), deckId := Some("d"));
    var path := "/flashcards/d/x/1";
    assert UpdatePath(a) == path;
    assert UpdatePath(b) == path;
    assert [a][..0] == [];
    assert BatchOf([a]) == Success(map[path := a]);
    assert [a, b][..1] == [a];
    assert BatchOf([a, b]) == Success(map[path := a][path := b]);
    assert map[path := a][path := b] == map[path := b];
  }

  /** Whether `batch` holds a card with deck id `d` and card id `i`; such a card is
      filed under `PathText(CardPath(d, i))`. */
  predicate Writes(batch: map<string, Flashcard>, d: string, i: string)
  {
    var p := PathText(CardPath(d, i));
    p in batch && batch[p].deckId == Some(d) && batch[p].id == Some(i)
  }

  /** The card ids the batch writes under deck `d`. */
  function WrittenIds(batch: map<string, Flashcard>, d: string): (ids: set<string>)
    requires WellKeyed(batch)
    ensures forall i :: i in ids <==> Writes(batch, d, i)
  {
    set p | p in batch && batch[p].deckId == Some(d) :: batch[p].id.value
  }

  /** The decks the batch writes into. */
  function WrittenDecks(batch: map<string, Flashcard>): (ds: set<string>)
    requires WellKeyed(batch)
    ensures forall d :: d in ds <==> exists p :: p in batch && batch[p].deckId == Some(d)
  {
    set p | p in batch :: batch[p].deckId.value
  }

  /** The children of deck `d` after the batch: the cards it writes there, as `encode`
      writes them, over what was stored before. */
  function DeckAfter(store: map<string, map<string, Value>>, batch: map<string, Flashcard>, encode: Flashcard -> Value, d: string): (n: map<string, Value>)
    requires WellKeyed(batch)
    ensures forall i :: Writes(batch, d, i) ==> i in n && n[i] == encode(batch[PathText(CardPath(d, i))])
    ensures forall i :: !Writes(batch, d, i) ==>
      (i in n <==> d in store && i in store[d]) && (i in n ==> n[i] == store[d][i])
  {
    var before := if d in store then store[d] else map[];
    var ids := WrittenIds(batch, d);
    before + map i | i in ids :: encode(batch[PathText(CardPath(d, i))])
  }

  /** The `flashcards` subtree after `updateChildren(batch)`: each card of the batch is
      stored, as `encode` writes it, at its own deck id and card id; every other record
      stays as it was. */
  function ApplyBatch(store: map<string, map<string, Value>>, batch: map<string, Flashcard>, encode: Flashcard -> Value): (r: map<string, map<string, Value>>)
    requires WellKeyed(batch)
    ensures forall d, i :: Writes(batch, d, i) ==>
      d in r && i in r[d] && r[d][i] == encode(batch[PathText(CardPath(d, i))])
    ensures forall d, i :: !Writes(batch, d, i) ==>
      (d in r && i in r[d] <==> d in store && i in store[d]) &&
      (d in store && i in store[d] ==> r[d][i] == store[d][i])
  {
    var decks := store.Keys + WrittenDecks(batch);
    var r := map d | d in decks :: DeckAfter(store, batch, encode, d);
    assert forall d, i :: Writes(batch, d, i) ==> d in decks by {
      forall d, i | Writes(batch, d, i)
        ensures d in decks
      {
        var p := PathText(CardPath(d, i));
        assert p in batch && batch[p].deckId == Some(d);
      }
    }
    r
  }

  /** Every card of a batch is written: it is reachable at its own deck id and card id. */
  lemma BatchCardsAreWritten(batch: map<string, Flashcard>, p: string)
    requires WellKeyed(batch) && p in batch
    ensures Writes(batch, batch[p].deckId.value, batch[p].id.value)
  {
  }

  /** With the record layout of `RecordOf`, a card the batch writes reads back through
      `findById` as itself, with the default bookkeeping. */
  lemma SavedCardReadsBack(store: map<string, map<string, Value>>, batch: map<string, Flashcard>, p: string)
    requires WellKeyed(batch) && p in batch
    ensures var c := batch[p];
            var r := ApplyBatch(store, batch, RecordOf);
            c.deckId.value in r && c.id.value in r[c.deckId.value] &&
            ToFlashcard(r[c.deckId.value][c.id.value]) == Some(Assemble(IdentityOf(c), DefaultBookkeeping, PayloadOf(c)))
  {
    var c := batch[p];
    BatchCardsAreWritten(batch, p);
    assert PathText(CardPath(c.deckId.value, c.id.value)) == p;
    DecodeRecordOf(c);
  }

  /** The record of `c` as a mapper that writes only the class's declared properties
      would store it: the layout of `RecordOf` without the `"type"` key, since the
      `Flashcard` class declares no `type` property. */
  function PropertyRecordOf(c: Flashcard): (v: Value)
    ensures v.VMap? && "type" !in v.fields
  {
    VMap(RecordOf(c).fields - {"type"})
  }

  /** Saved as a property record, no card of the batch is found again by `findById`:
      without a `"type"` key the decoder returns null. */
  lemma UntaggedSavedCardsAreLost(db: Database, store: map<string, map<string, Value>>, batch: map<string, Flashcard>, p: string)
    requires WellKeyed(batch) && p in batch
    requires db.flashcards == ApplyBatch(store, batch, PropertyRecordOf)
    ensures FindById(db, batch[p].deckId.value, batch[p].id.value) == None
  {
    var c := batch[p];
    var d, i := c.deckId.value, c.id.value;
    BatchCardsAreWritten(batch, p);
    assert PathText(CardPath(d, i)) == p;
    assert db.flashcards[d][i] == PropertyRecordOf(c);
    PropertyRecordUnreadable(c);
  }

  /** A record without a `"type"` key does not decode. */
  lemma PropertyRecordUnreadable(c: Flashcard)
    ensures ToFlashcard(PropertyRecordOf(c)) == None
  {
    var v := PropertyRecordOf(c);
    assert Get(v.fields, "type") == VNull;
    assert DeclaredType(v).None?;
  }

  /** The `forEach` loop of `saveAll` that fills the batch map. */
  method BuildBatch(cards: seq<Flashcard>) returns (r: Result<map<string, Flashcard>, Error>)
    ensures r == BatchOf(cards)
  {
    var childUpdates: map<string, Flashcard> := map[];
    var i := 0;
    while i < |cards|
      invariant 0 <= i <= |cards|
      invariant BatchOf(cards[..i]) == Success(childUpdates)
    {
      var flashcard := cards[i];
      assert cards[..i + 1][..i] == cards[..i];
      assert cards[..i + 1][i] == flashcard;
      if flashcard.deckId.None? {
        BatchOfFailureStays(cards, i + 1);
        return Failure(DeckIdIsNull);
      }
      if flashcard.id.None? {
        BatchOfFailureStays(cards, i + 1);
        return Failure(IdIsNull);
      }
      var path := "/flashcards/" + flashcard.deckId.value + "/" + flashcard.id.value;
      childUpdates := childUpdates[path := flashcard];
      i := i + 1;
    }
    assert cards[..i] == cards;
    r := Success(childUpdates);
  }

  /** `saveAll`: nothing on an empty list; otherwise the batch is built first and, if
      no card lacks a path, written in one `updateChildren` call, each card stored as
      `encode` writes it. */
  method SaveAll(db: Database, flashcards: seq<Flashcard>, encode: Flashcard -> Value) returns (r: Result<(), Error>)
    modifies db
    ensures db.decks == old(db.decks) && db.chats == old(db.chats) && db.deckUpdates == old(db.deckUpdates)
    ensures flashcards == [] ==> r.Success? && db.flashcards == old(db.flashcards)
    ensures flashcards != [] && BatchOf(flashcards).Failure? ==>
      r == Failure(BatchOf(flashcards).error) && db.flashcards == old(db.flashcards)
    ensures flashcards != [] && BatchOf(flashcards).Success? ==>
      r.Success? && WellKeyed(BatchOf(flashcards).value) &&
      db.flashcards == ApplyBatch(old(db.flashcards), BatchOf(flashcards).value, encode)
  {
    if flashcards == [] {
      return Success(());
    }
    var childUpdates := BuildBatch(flashcards);
    match childUpdates
    case Failure(e) =>
      r := Failure(e);
    case Success(batch) =>
      BatchWellKeyed(flashcards);
      db.flashcards := ApplyBatch(db.flashcards, batch, encode);
      r := Success(());
  }
}
