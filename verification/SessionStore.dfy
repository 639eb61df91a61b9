/**
 * The Baileys session store: what it learns about lids and messages
 * (OpenWA/src/engine/adapters/baileys-session-store.ts).
 */
module SessionStore {
  import opened Wrappers
  import opened WaId
  import LidMapping

  /** The properties of a contact record; an absent property and an undefined one read the same. */
  type Fields = map<string, Option<string>>

  function Field(c: Fields, name: string): Option<string> {
    if name in c then c[name] else None
  }

  /** A lid and a phone as they arrive; either may be missing. */
  datatype Pair = Pair(lid: Option<string>, pn: Option<string>)

  /** What is known about lids: this session's map, and the forward index of the shared store. */
  datatype Memory = Memory(lidToPn: map<string, string>, cached: LidMapping.Forward)

  datatype Known = Known(contacts: map<string, Fields>, memory: Memory)

  datatype Message = Message(chat: Option<string>, key: string, timestamp: int, text: string)

  function Learn(m: Memory, p: Pair): Memory {
    if Truthy(p.lid) && Truthy(p.pn) then
      var lid, pn := UserPart(p.lid.value), UserPart(p.pn.value);
      Memory(m.lidToPn[p.lid.value := p.pn.value], if lid == "" then m.cached else m.cached[lid := Some(pn)])
    else m
  }

  function LearnAll(m: Memory, pairs: seq<Pair>): Memory {
    if pairs == [] then m else Learn(LearnAll(m, pairs[..|pairs| - 1]), pairs[|pairs| - 1])
  }

  /** The pair a merged contact record carries. */
  function PairOf(c: Fields): Pair {
    Pair(Field(c, "lid"), OrElse(Field(c, "phoneNumber"), Field(c, "jid")))
  }

  function Merged(contacts: map<string, Fields>, id: string, r: Fields): Fields {
    (if id in contacts then contacts[id] else map["id" := Some(id)]) + r
  }

  function Upsert(x: Known, r: Fields): Known {
    var id := Field(r, "id");
    if !Truthy(id) then x
    else
      var merged := Merged(x.contacts, id.value, r);
      Known(x.contacts[id.value := merged], Learn(x.memory, PairOf(merged)))
  }

  function UpsertAll(x: Known, records: seq<Fields>): Known {
    if records == [] then x else Upsert(UpsertAll(x, records[..|records| - 1]), records[|records| - 1])
  }

  function Record(last: map<string, Message>, m: Message): map<string, Message> {
    if !Truthy(m.chat) then last
    else if m.chat.value in last && last[m.chat.value].timestamp >= m.timestamp then last
    else last[m.chat.value := m]
  }

  function RecordAll(ms: seq<Message>): map<string, Message> {
    if ms == [] then map[] else Record(RecordAll(ms[..|ms| - 1]), ms[|ms| - 1])
  }

  /** What the resolver reads of this state. */
  function View(x: Known): Session {
    Session(x.memory.lidToPn, map id | id in x.contacts :: Field(x.contacts[id], "phoneNumber"), x.memory.cached)
  }

  class Store {
    var contacts: map<string, Fields>
    var lidToPn: map<string, string>
    var lastMessages: map<string, Message>
    const lidStore: LidMapping.Store

    ghost predicate Valid()
      reads this, lidStore
    {
      lidStore.Valid()
    }

    function Memorized(): Memory
      reads this, lidStore
    {
      Memory(lidToPn, lidStore.lidToPhone)
    }

    constructor (shared: LidMapping.Store)
      requires shared.Valid()
      ensures Valid() && lidStore == shared && lastMessages == map[]
      ensures contacts == map[] && Memorized() == Memory(map[], shared.lidToPhone)
    {
      contacts, lidToPn, lastMessages, lidStore := map[], map[], map[], shared;
    }

    /** The body both upsertContacts and addLidMappings share; the write to the table may fail. */
    method LearnPair(p: Pair, persisted: bool)
      requires Valid()
      modifies this`lidToPn, lidStore
      ensures Valid() && Memorized() == Learn(old(Memorized()), p)
    {
      if Truthy(p.lid) && Truthy(p.pn) {
        lidToPn := lidToPn[p.lid.value := p.pn.value];
        lidStore.Remember(UserPart(p.lid.value), Some(UserPart(p.pn.value)), persisted);
      }
    }

    /** addLidMappings; `persisted(i)` is the outcome of the i-th write. */
    method AddLidMappings(pairs: seq<Pair>, persisted: nat -> bool)
      requires Valid()
      modifies this`lidToPn, lidStore
      ensures Valid() && Memorized() == LearnAll(old(Memorized()), pairs)
    {
      for i := 0 to |pairs|
        invariant Valid() && Memorized() == LearnAll(old(Memorized()), pairs[..i])
      {
        assert pairs[..i + 1][..i] == pairs[..i];
        LearnPair(pairs[i], persisted(i));
      }
      assert pairs[..|pairs|] == pairs;
    }

    /** upsertContacts */
    method UpsertContacts(records: seq<Fields>, persisted: nat -> bool)
      requires Valid()
      modifies this`contacts, this`lidToPn, lidStore
      ensures Valid() && Known(contacts, Memorized()) == UpsertAll(old(Known(contacts, Memorized())), records)
    {
      for i := 0 to |records|
        invariant Valid() && Known(contacts, Memorized()) == UpsertAll(old(Known(contacts, Memorized())), records[..i])
      {
        assert records[..i + 1][..i] == records[..i];
        var id := Field(records[i], "id");
        if Truthy(id) {
          var existing := if id.value in contacts then contacts[id.value] else map["id" := Some(id.value)];
          var merged := existing + records[i];
          contacts := contacts[id.value := merged];
          LearnPair(PairOf(merged), persisted(i));
        }
      }
      assert records[..|records|] == records;
    }

    /** recordMessage */
    method RecordMessage(m: Message)
      modifies this`lastMessages
      ensures lastMessages == Record(old(lastMessages), m)
    {
      if !Truthy(m.chat) || (m.chat.value in lastMessages && lastMessages[m.chat.value].timestamp >= m.timestamp) {
        return;
      }
      lastMessages := lastMessages[m.chat.value := m];
    }
  }

  // ---- The newest message of every chat ----

  predicate Of(m: Message, chat: string) {
    Truthy(m.chat) && m.chat.value == chat
  }

  /** After any messages, a chat's entry is its newest message, the first of them when several are equally new. */
  lemma {:induction false} KeepsTheNewest(ms: seq<Message>, chat: string)
    ensures chat in RecordAll(ms) <==> exists i :: 0 <= i < |ms| && Of(ms[i], chat)
    ensures chat in RecordAll(ms) ==>
              exists k :: 0 <= k < |ms| && Of(ms[k], chat) && RecordAll(ms)[chat] == ms[k] && IsNewest(ms, chat, k)
  {
    if ms != [] {
      var n := |ms| - 1;
      KeepsTheNewest(ms[..n], chat);
      if Of(ms[n], chat) && (chat !in RecordAll(ms[..n]) || RecordAll(ms[..n])[chat].timestamp < ms[n].timestamp) {
        assert IsNewest(ms, chat, n);
      } else if chat in RecordAll(ms[..n]) {
        var k :| 0 <= k < n && Of(ms[..n][k], chat) && RecordAll(ms[..n])[chat] == ms[..n][k]
          && IsNewest(ms[..n], chat, k);
        assert ms[k] == ms[..n][k] && IsNewest(ms, chat, k);
      }
    }
  }

  ghost predicate IsNewest(ms: seq<Message>, chat: string, k: nat) {
    && k < |ms|
    && (forall j :: 0 <= j < |ms| && Of(ms[j], chat) ==> ms[j].timestamp <= ms[k].timestamp)
    && (forall j :: 0 <= j < k && Of(ms[j], chat) ==> ms[j].timestamp < ms[k].timestamp)
  }

  // ---- The last word on every pair and every field ----

  predicate Complete(p: Pair) {
    Truthy(p.lid) && Truthy(p.pn)
  }

  /** The phone of the last complete pair for this lid. */
  function LastPhone(pairs: seq<Pair>, lid: string): Option<string> {
    if pairs == [] then None
    else
      var p := pairs[|pairs| - 1];
      if Complete(p) && p.lid.value == lid then p.pn else LastPhone(pairs[..|pairs| - 1], lid)
  }

  /** The bare phone of the last complete pair whose lid has this user part. */
  function LastBarePhone(pairs: seq<Pair>, user: string): Option<string> {
    if pairs == [] then None
    else
      var p := pairs[|pairs| - 1];
      if Complete(p) && UserPart(p.lid.value) == user then Some(UserPart(p.pn.value))
      else LastBarePhone(pairs[..|pairs| - 1], user)
  }

  /** Learning pairs, the last complete one wins: per lid in the session, per bare lid in the shared store. */
  lemma {:induction false} LastPairWins(m: Memory, pairs: seq<Pair>, lid: string, user: string)
    ensures Get(LearnAll(m, pairs).lidToPn, lid) == OrElse(LastPhone(pairs, lid), Get(m.lidToPn, lid))
    ensures user != "" ==>
              LidMapping.Lookup(LearnAll(m, pairs).cached, user) ==
              if LastBarePhone(pairs, user).Some? then Some(LastBarePhone(pairs, user))
              else LidMapping.Lookup(m.cached, user)
  {
    if pairs != [] {
      LastPairWins(m, pairs[..|pairs| - 1], lid, user);
    }
  }

  /** What the last record of this contact that has the property says. */
  function LastField(records: seq<Fields>, id: string, name: string): Option<Option<string>> {
    if records == [] then None
    else
      var r := records[|records| - 1];
      if Field(r, "id") == Some(id) && name in r then Some(r[name]) else LastField(records[..|records| - 1], id, name)
  }

  /** Upserting records, a property keeps the last value it was sent with, in whichever record that was. */
  lemma {:induction false} LastFieldWins(x: Known, records: seq<Fields>, id: string, name: string)
    requires id != "" && name != "id"
    ensures var after := UpsertAll(x, records).contacts;
            match LastField(records, id, name)
            case Some(v) => id in after && name in after[id] && after[id][name] == v
            case None =>
              && (id in after && name in after[id] <==> id in x.contacts && name in x.contacts[id])
              && (id in after && name in after[id] ==> after[id][name] == x.contacts[id][name])
  {
    if records != [] {
      LastFieldWins(x, records[..|records| - 1], id, name);
    }
  }

  /** A record of a contact whose lid and phone are then both known teaches the pair; the number goes before the jid. */
  lemma UpsertLearns(x: Known, r: Fields)
    requires Truthy(Field(r, "id"))
    ensures var id := Field(r, "id").value;
            var y := Upsert(x, r);
            var lid, jid := Field(y.contacts[id], "lid"), Field(y.contacts[id], "jid");
            var number := Field(y.contacts[id], "phoneNumber");
            var phone := if number.Some? then number else jid;
            if Truthy(lid) && Truthy(phone) then
              y.memory.lidToPn == x.memory.lidToPn[lid.value := phone.value]
              && (UserPart(lid.value) != "" ==>
                    LidMapping.Lookup(y.memory.cached, UserPart(lid.value)) == Some(Some(UserPart(phone.value))))
            else y.memory == x.memory
  {
  }

  // ---- Digit phones ----

  predicate DigitPhone(phone: Option<string>) {
    Truthy(phone) ==> Digits(UserPart(phone.value))
  }

  predicate DigitFields(c: Fields) {
    DigitPhone(Field(c, "phoneNumber")) && DigitPhone(Field(c, "jid"))
  }

  ghost predicate DigitMemory(m: Memory) {
    && (forall k :: k in m.lidToPn ==> m.lidToPn[k] != "" && Digits(UserPart(m.lidToPn[k])))
    && (forall k :: k in m.cached && Truthy(m.cached[k]) ==> Digits(m.cached[k].value))
  }

  ghost predicate DigitKnown(x: Known) {
    DigitMemory(x.memory) && forall id :: id in x.contacts ==> DigitFields(x.contacts[id])
  }

  lemma LearnKeepsDigits(m: Memory, p: Pair)
    requires DigitMemory(m) && DigitPhone(p.pn)
    ensures DigitMemory(Learn(m, p))
  {
  }

  lemma {:induction false} LearnAllKeepsDigits(m: Memory, pairs: seq<Pair>)
    requires DigitMemory(m) && forall i :: 0 <= i < |pairs| ==> DigitPhone(pairs[i].pn)
    ensures DigitMemory(LearnAll(m, pairs))
  {
    if pairs != [] {
      LearnAllKeepsDigits(m, pairs[..|pairs| - 1]);
      LearnKeepsDigits(LearnAll(m, pairs[..|pairs| - 1]), pairs[|pairs| - 1]);
    }
  }

  lemma {:induction false} UpsertAllKeepsDigits(x: Known, records: seq<Fields>)
    requires DigitKnown(x) && forall i :: 0 <= i < |records| ==> DigitFields(records[i])
    ensures DigitKnown(UpsertAll(x, records))
  {
    if records != [] {
      var before := UpsertAll(x, records[..|records| - 1]);
      var r := records[|records| - 1];
      UpsertAllKeepsDigits(x, records[..|records| - 1]);
      var id := Field(r, "id");
      if Truthy(id) {
        var merged := Merged(before.contacts, id.value, r);
        MergedKeepsDigits(before.contacts, id.value, r);
        LearnKeepsDigits(before.memory, PairOf(merged));
      }
    }
  }

  lemma MergedKeepsDigits(contacts: map<string, Fields>, id: string, r: Fields)
    requires DigitFields(r) && (id in contacts ==> DigitFields(contacts[id]))
    ensures DigitFields(Merged(contacts, id, r)) && DigitPhone(PairOf(Merged(contacts, id, r)).pn)
  {
  }

  /** However a session learned its digit phones, reducing an id twice is reducing it once. */
  lemma SessionNeutralIsStable(x: Known, pairs: seq<Pair>, records: seq<Fields>, jid: string)
    requires DigitKnown(x) && forall i :: 0 <= i < |pairs| ==> DigitPhone(pairs[i].pn)
    requires forall i :: 0 <= i < |records| ==> DigitFields(records[i])
    ensures var y := UpsertAll(x.(memory := LearnAll(x.memory, pairs)), records);
            Neutral(View(y), Neutral(View(y), jid)) == Neutral(View(y), jid)
  {
    LearnAllKeepsDigits(x.memory, pairs);
    var y := UpsertAll(x.(memory := LearnAll(x.memory, pairs)), records);
    UpsertAllKeepsDigits(x.(memory := LearnAll(x.memory, pairs)), records);
    NeutralIsIdempotent(View(y), jid);
  }

  // ---- The three sources of a phone ----

  /** No pair was learned with an empty phone. */
  ghost predicate PhonesGiven(x: Known) {
    forall lid :: lid in x.memory.lidToPn ==> x.memory.lidToPn[lid] != ""
  }

  lemma {:induction false} LearningGivesPhones(x: Known, pairs: seq<Pair>, records: seq<Fields>)
    requires PhonesGiven(x)
    ensures PhonesGiven(UpsertAll(x.(memory := LearnAll(x.memory, pairs)), records))
    decreases |pairs| + |records|
  {
    if records != [] {
      LearningGivesPhones(x, pairs, records[..|records| - 1]);
    } else if pairs != [] {
      LearningGivesPhones(x, pairs[..|pairs| - 1], []);
    }
  }

  /** The contact a lid is looked up under: without its device suffix, else as it came. */
  function ContactOf(x: Known, lidJid: string, id: string): Option<Fields> {
    if lidJid in x.contacts then Some(x.contacts[lidJid]) else if id in x.contacts then Some(x.contacts[id]) else None
  }

  /**
   * resolvePhone of a lid, after any pairs and records: the phone learned for it without its device suffix, else for
   * the id as it came, else the phone number of its contact, else what the shared store has.
   */
  lemma PhoneSources(x: Known, id: string)
    requires PhonesGiven(x) && Parse(id).kind == Lid
    ensures var user := Parse(id).userPart;
            var lidJid := Id(user, "lid");
            var contact := ContactOf(x, lidJid, id);
            var number := if contact.Some? then Field(contact.value, "phoneNumber") else None;
            ResolvePhone(View(x), id) ==
            if lidJid in x.memory.lidToPn then Some(UserPart(x.memory.lidToPn[lidJid]))
            else if id in x.memory.lidToPn then Some(UserPart(x.memory.lidToPn[id]))
            else if Truthy(number) then Some(UserPart(number.value))
            else if user in x.memory.cached then x.memory.cached[user]
            else None
  {
  }

  /** A contact alone is enough: with nothing learned about a lid, its contact's phone number is the answer. */
  lemma ContactResolves(cached: LidMapping.Forward, user: string, r: Fields)
    requires Canonical(user) && Field(r, "id") == Some(Id(user, "lid"))
    requires Truthy(Field(r, "phoneNumber")) && !Truthy(Field(r, "lid"))
    ensures ResolvePhone(View(Upsert(Known(map[], Memory(map[], cached)), r)), Id(user, "lid"))
         == Some(UserPart(Field(r, "phoneNumber").value))
  {
    var y := Upsert(Known(map[], Memory(map[], cached)), r);
    DomainsArePlain("lid");
    KindParsed(user, "lid");
    assert y.memory == Memory(map[], cached);
    PhoneSources(y, Id(user, "lid"));
  }

  // ---- A restart forgets no learned number ----

  /** A lid in the spelling the map is keyed by. */
  predicate PlainLid(lid: string) {
    var u := UserPart(lid);
    u != "" && Canonical(u) && '@' !in u && lid == Id(u, "lid")
  }

  predicate PlainPair(p: Pair) {
    (Truthy(p.lid) ==> PlainLid(p.lid.value)) && DigitPhone(p.pn)
  }

  /** Everything in the session's map is in the shared store too. */
  ghost predicate Backed(m: Memory) {
    forall lid :: lid in m.lidToPn ==>
      && PlainLid(lid) && m.lidToPn[lid] != ""
      && LidMapping.Lookup(m.cached, UserPart(lid)) == Some(Some(UserPart(m.lidToPn[lid])))
  }

  lemma {:induction false} LearnedIsBacked(cached: LidMapping.Forward, pairs: seq<Pair>)
    requires forall i :: 0 <= i < |pairs| ==> PlainPair(pairs[i])
    ensures Backed(LearnAll(Memory(map[], cached), pairs))
  {
    if pairs != [] {
      LearnedIsBacked(cached, pairs[..|pairs| - 1]);
      LearnKeepsBacked(LearnAll(Memory(map[], cached), pairs[..|pairs| - 1]), pairs[|pairs| - 1]);
    }
  }

  lemma LearnKeepsBacked(m: Memory, p: Pair)
    requires Backed(m) && PlainPair(p)
    ensures Backed(Learn(m, p))
  {
  }

  /**
   * A session that learned pairs and one that starts empty on the shared store reduce every id alike: what was
   * learned survives a restart and is shared between sessions.
   */
  lemma LearnedSurvivesRestart(cached: LidMapping.Forward, pairs: seq<Pair>, jid: string)
    requires forall i :: 0 <= i < |pairs| ==> PlainPair(pairs[i])
    ensures var m := LearnAll(Memory(map[], cached), pairs);
            Neutral(Session(m.lidToPn, map[], m.cached), jid) == Neutral(Session(map[], map[], m.cached), jid)
  {
    var m := LearnAll(Memory(map[], cached), pairs);
    var s, t := Session(m.lidToPn, map[], m.cached), Session(map[], map[], m.cached);
    LearnedIsBacked(cached, pairs);
    NeutralIsReduced(s, jid);
    NeutralIsReduced(t, jid);
    if Parse(jid).kind == Lid {
      SameResolution(m, jid);
    }
  }

  /**
   * For every session with digit phones: an id is reduced alike before and after a restart exactly when the session's
   * own maps know nothing about it, or the shared store has the phone they know.
   */
  lemma RestartAgreesExactlyWhen(x: Known, jid: string)
    requires DigitKnown(x)
    ensures var s, p := View(x), Parse(jid);
            var own := OwnPhone(s, jid, p.userPart);
            Neutral(s, jid) == Neutral(Session(map[], map[], s.cached), jid)
            <==> (p.kind == Lid && own.Some? ==> LidMapping.Lookup(s.cached, p.userPart) == Some(own))
  {
    var s, p := View(x), Parse(jid);
    var t := Session(map[], map[], s.cached);
    NeutralIsReduced(s, jid);
    NeutralIsReduced(t, jid);
    if p.kind == Lid {
      var own := OwnPhone(s, jid, p.userPart);
      if own.Some? {
        OwnIsDigits(x, jid, p.userPart);
      }
      ReducedAlike(jid, p, own, if p.userPart in s.cached then s.cached[p.userPart] else None);
    }
  }

  lemma OwnIsDigits(x: Known, jid: string, user: string)
    requires DigitKnown(x) && OwnPhone(View(x), jid, user).Some?
    ensures OwnPhone(View(x), jid, user).value != ""
  {
  }

  lemma ReducedAlike(jid: string, p: Parsed, own: Option<string>, cached: Option<string>)
    requires p.kind == Lid && (own.Some? ==> own.value != "")
    ensures Reduce(jid, p, if own.Some? then own else cached) == Reduce(jid, p, cached)
       <==> (own.Some? ==> cached == own)
  {
    if own.Some? {
      NoColon("", "c.us");
      NoColon("", "lid");
      if Truthy(cached) {
        SameLocal(own.value, cached.value, "c.us");
      } else {
        SameParts(own.value, "c.us", p.userPart, "lid");
      }
    }
  }

  lemma SameResolution(m: Memory, jid: string)
    requires Backed(m) && Parse(jid).kind == Lid
    ensures ResolvePhone(Session(m.lidToPn, map[], m.cached), jid) == ResolvePhone(Session(map[], map[], m.cached), jid)
  {
    var p := Parse(jid);
    if jid in m.lidToPn {
      PlainKey(jid);
    }
    SameParsed(m, jid, p);
  }

  /** An id that is a key of the map is found under its own user part. */
  lemma PlainKey(jid: string)
    requires PlainLid(jid)
    ensures jid == Id(Parse(jid).userPart, "lid")
  {
    DomainsArePlain("lid");
    ParseOfParts(UserPart(jid), "lid");
  }

  lemma SameParsed(m: Memory, jid: string, p: Parsed)
    requires Backed(m) && p.kind == Lid && (jid in m.lidToPn ==> jid == Id(p.userPart, "lid"))
    ensures ResolveParsed(Session(m.lidToPn, map[], m.cached), jid, p)
         == ResolveParsed(Session(map[], map[], m.cached), jid, p)
  {
    var key := Id(p.userPart, "lid");
    if key in m.lidToPn {
      BackedAt(m, p.userPart);
      assert Truthy(Some(m.lidToPn[key]));
    } else {
      assert jid !in m.lidToPn;
    }
  }

  lemma BackedAt(m: Memory, user: string)
    requires Backed(m) && Id(user, "lid") in m.lidToPn
    ensures var pn := m.lidToPn[Id(user, "lid")];
            pn != "" && user in m.cached && m.cached[user] == Some(UserPart(pn))
  {
    PlainUser(user);
  }

  lemma PlainUser(u: string)
    requires PlainLid(Id(u, "lid"))
    ensures UserPart(Id(u, "lid")) == u
  {
    SameLocal(u, UserPart(Id(u, "lid")), "lid");
  }
}
