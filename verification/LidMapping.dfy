/**
 * The lid-to-phone store (OpenWA/src/engine/identity/lid-mapping-store.service.ts): two in-memory indexes kept in
 * step, written through to a table. A phone is `Some(digits)`, or `None` for a recorded negative result.
 */
module LidMapping {
  import opened Wrappers

  type Phone = Option<string>
  type Forward = map<string, Phone>
  type Reverse = map<string, set<string>>

  function LidsFor(reverse: Reverse, phone: string): set<string> {
    if phone in reverse then reverse[phone] else {}
  }

  /** The reverse index lists, under every non-empty phone, exactly the lids that map to it. */
  ghost predicate Inverse(forward: Forward, reverse: Reverse) {
    forall phone :: LidsFor(reverse, phone) == MappedTo(forward, phone)
  }

  function MappedTo(forward: Forward, phone: string): set<string> {
    if phone == "" then {} else set lid | lid in forward && forward[lid] == Some(phone)
  }

  /** One call of remember, and whether its upsert reached the table. */
  datatype Call = Call(lid: string, phone: Phone, persisted: bool)

  predicate IsNoOp(forward: Forward, lid: string, phone: Phone) {
    lid == "" || (lid in forward && forward[lid] == phone)
  }

  class Store {
    var lidToPhone: Forward
    var phoneToLids: Reverse
    /** The table the repository stands for. */
    var table: Forward

    ghost predicate Valid()
      reads this
    {
      Inverse(lidToPhone, phoneToLids)
    }

    constructor (stored: Forward)
      ensures Valid() && lidToPhone == map[] && table == stored
    {
      lidToPhone, phoneToLids, table := map[], map[], stored;
    }

    /** index */
    method Index(lid: string, phone: Phone)
      requires Valid()
      modifies this`lidToPhone, this`phoneToLids
      ensures Valid() && lidToPhone == old(lidToPhone)[lid := phone]
    {
      if lid in lidToPhone {
        var prev := lidToPhone[lid];
        if prev.Some? && prev.value != "" && prev != phone && prev.value in phoneToLids {
          phoneToLids := phoneToLids[prev.value := phoneToLids[prev.value] - {lid}];
        }
      }
      lidToPhone := lidToPhone[lid := phone];
      if phone.Some? && phone.value != "" {
        var known := if phone.value in phoneToLids then phoneToLids[phone.value] else {};
        phoneToLids := phoneToLids[phone.value := known + {lid}];
      }
      forall q ensures LidsFor(phoneToLids, q) == MappedTo(lidToPhone, q) {
        assert LidsFor(old(phoneToLids), q) == MappedTo(old(lidToPhone), q);
      }
    }

    /** remember; `persisted` is the outcome of the upsert. */
    method Remember(lid: string, phone: Phone, persisted: bool)
      requires Valid()
      modifies this
      ensures Valid()
      ensures Indexes(lidToPhone, table)
           == Remembered(Indexes(old(lidToPhone), old(table)), Call(lid, phone, persisted))
    {
      if IsNoOp(lidToPhone, lid, phone) {
        return;
      }
      Index(lid, phone);
      if persisted {
        table := table[lid := phone];
      }
    }

    /** onModuleInit: the rows come in any order, each lid once; `None` when the table cannot be read. */
    method OnModuleInit(rows: Option<seq<(string, Phone)>>)
      requires Valid() && lidToPhone == map[]
      requires rows.Some? ==> RowsOf(rows.value, table)
      modifies this`lidToPhone, this`phoneToLids
      ensures Valid()
      ensures lidToPhone == if rows.Some? then table else map[]
    {
      match rows
      case None =>
      case Some(loaded) =>
        for i := 0 to |loaded|
          invariant Valid()
          invariant lidToPhone.Keys == set k | 0 <= k < i :: loaded[k].0
          invariant forall lid :: lid in lidToPhone ==> lid in table && lidToPhone[lid] == table[lid]
        {
          Index(loaded[i].0, loaded[i].1);
        }
    }

    method GetCached(lid: string) returns (phone: Option<Phone>)
      ensures phone == if lid in lidToPhone then Some(lidToPhone[lid]) else None
    {
      phone := if lid in lidToPhone then Some(lidToPhone[lid]) else None;
    }

    /** lidsForPhone answers from the reverse index what a scan of the forward one would. */
    method LidsForPhone(phone: string) returns (lids: set<string>)
      requires Valid()
      ensures lids == MappedTo(lidToPhone, phone)
    {
      lids := if phone in phoneToLids then phoneToLids[phone] else {};
      assert lids == LidsFor(phoneToLids, phone);
    }
  }

  /** `rows` lists the table. */
  ghost predicate RowsOf(rows: seq<(string, Phone)>, table: Forward) {
    && (forall i :: 0 <= i < |rows| ==> rows[i].0 in table && table[rows[i].0] == rows[i].1)
    && (forall lid :: lid in table ==> exists i :: 0 <= i < |rows| && rows[i].0 == lid)
  }

  // ---- Any sequence of calls ----

  datatype Indexes = Indexes(forward: Forward, table: Forward)

  /** What one call does to the forward index and the table. */
  function Remembered(x: Indexes, c: Call): Indexes {
    if IsNoOp(x.forward, c.lid, c.phone) then x
    else Indexes(x.forward[c.lid := c.phone], if c.persisted then x.table[c.lid := c.phone] else x.table)
  }

  function AfterCalls(x: Indexes, calls: seq<Call>): Indexes {
    if calls == [] then x else Remembered(AfterCalls(x, calls[..|calls| - 1]), calls[|calls| - 1])
  }

  /** The phone of the last call for this lid, else what was there before. */
  function LastSaid(before: Option<Phone>, calls: seq<Call>, lid: string): Option<Phone> {
    if calls == [] then before
    else if calls[|calls| - 1].lid == lid then Some(calls[|calls| - 1].phone)
    else LastSaid(before, calls[..|calls| - 1], lid)
  }

  function Lookup(m: Forward, lid: string): Option<Phone> {
    if lid in m then Some(m[lid]) else None
  }

  /** Last write wins, for every lid but the empty one. */
  lemma {:induction false} LastWriteWins(x: Indexes, calls: seq<Call>, lid: string)
    requires lid != ""
    ensures Lookup(AfterCalls(x, calls).forward, lid) == LastSaid(Lookup(x.forward, lid), calls, lid)
  {
    if calls != [] {
      LastWriteWins(x, calls[..|calls| - 1], lid);
    }
  }

  /** When every upsert succeeds, the table follows the forward index. */
  lemma {:induction false} TableFollows(x: Indexes, calls: seq<Call>)
    requires x.table == x.forward && forall i :: 0 <= i < |calls| ==> calls[i].persisted
    ensures AfterCalls(x, calls).table == AfterCalls(x, calls).forward
  {
    if calls != [] {
      TableFollows(x, calls[..|calls| - 1]);
    }
  }

  /** The last call that changed the index for this lid did not reach the table. */
  predicate LastWriteLost(x: Indexes, calls: seq<Call>, lid: string) {
    calls != [] &&
    var before, last := calls[..|calls| - 1], calls[|calls| - 1];
    if last.lid == lid && !IsNoOp(AfterCalls(x, before).forward, lid, last.phone) then !last.persisted
    else LastWriteLost(x, before, lid)
  }

  /** Whatever fails, the table and the index differ only at a lid whose last change was lost. */
  lemma {:induction false} OnlyLostWritesDiffer(x: Indexes, calls: seq<Call>, lid: string)
    requires Lookup(x.table, lid) == Lookup(x.forward, lid)
    ensures var y := AfterCalls(x, calls);
            Lookup(y.table, lid) == Lookup(y.forward, lid) || LastWriteLost(x, calls, lid)
  {
    if calls != [] {
      OnlyLostWritesDiffer(x, calls[..|calls| - 1], lid);
    }
  }

  /** The phone of the last call that changed the index for this lid and reached the table. */
  function LastPersisted(x: Indexes, calls: seq<Call>, lid: string): Option<Phone> {
    if calls == [] then None
    else
      var before, last := calls[..|calls| - 1], calls[|calls| - 1];
      if last.lid == lid && last.persisted && !IsNoOp(AfterCalls(x, before).forward, lid, last.phone)
      then Some(last.phone)
      else LastPersisted(x, before, lid)
  }

  /** What the table holds after any calls: the last persisted change, else what it held before. */
  function TableSays(x: Indexes, calls: seq<Call>, lid: string): Option<Phone> {
    if LastPersisted(x, calls, lid).Some? then LastPersisted(x, calls, lid) else Lookup(x.table, lid)
  }

  lemma {:induction false} TableIsLastPersisted(x: Indexes, calls: seq<Call>, lid: string)
    ensures Lookup(AfterCalls(x, calls).table, lid) == TableSays(x, calls, lid)
  {
    if calls != [] {
      TableIsLastPersisted(x, calls[..|calls| - 1], lid);
    }
  }

  /** Whatever fails, table and index agree at a lid exactly when the last persisted phone is the last one said. */
  lemma AgreeExactlyWhen(x: Indexes, calls: seq<Call>, lid: string)
    requires lid != ""
    ensures var y := AfterCalls(x, calls);
            Lookup(y.table, lid) == Lookup(y.forward, lid)
            <==> TableSays(x, calls, lid) == LastSaid(Lookup(x.forward, lid), calls, lid)
  {
    TableIsLastPersisted(x, calls, lid);
    LastWriteWins(x, calls, lid);
  }

  /** After a call whose write succeeds the table has its phone exactly when it had it or the call changes the index. */
  lemma ReachesExactlyWhen(x: Indexes, lid: string, phone: Phone)
    ensures Lookup(Remembered(x, Call(lid, phone, true)).table, lid) == Some(phone)
       <==> Lookup(x.table, lid) == Some(phone) || !IsNoOp(x.forward, lid, phone)
  {
  }

  /** A lost write is never made up for by saying the same again: the repeated calls are no-ops. */
  lemma {:induction false} LostWriteIsNotRetried(x: Indexes, lid: string, phone: Phone, again: seq<Call>)
    requires !IsNoOp(x.forward, lid, phone)
    requires forall i :: 0 <= i < |again| ==> again[i].lid == lid && again[i].phone == phone
    ensures var y := Remembered(x, Call(lid, phone, false));
            y.table == x.table && AfterCalls(y, again) == y
  {
    if again != [] {
      LostWriteIsNotRetried(x, lid, phone, again[..|again| - 1]);
    }
  }

  /** After any calls on a fresh store, a reload from the table rebuilds both relations if no upsert failed. */
  method ReloadRebuilds(calls: seq<Call>, rows: seq<(string, Phone)>) returns (live: Store, reloaded: Store)
    requires forall i :: 0 <= i < |calls| ==> calls[i].persisted
    requires RowsOf(rows, AfterCalls(Indexes(map[], map[]), calls).table)
    ensures live.Valid() && reloaded.Valid()
    ensures live.lidToPhone == reloaded.lidToPhone == AfterCalls(Indexes(map[], map[]), calls).forward
    ensures forall phone :: LidsFor(live.phoneToLids, phone) == LidsFor(reloaded.phoneToLids, phone)
  {
    live := new Store(map[]);
    ghost var x := Indexes(map[], map[]);
    for i := 0 to |calls|
      invariant live.Valid() && fresh(live)
      invariant Indexes(live.lidToPhone, live.table) == AfterCalls(x, calls[..i])
    {
      assert calls[..i + 1][..i] == calls[..i];
      live.Remember(calls[i].lid, calls[i].phone, true);
    }
    assert calls[..|calls|] == calls;
    TableFollows(x, calls);
    reloaded := new Store(live.table);
    reloaded.OnModuleInit(Some(rows));
  }
}
