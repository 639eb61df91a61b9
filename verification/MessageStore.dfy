/**
 * The bounded message store (OpenWA/src/engine/adapters/baileys-message-store.service.ts) over an abstract table.
 * Row ids stand for uuids: distinct, and compared only to break ties.
 */
module MessageStore {
  import opened Wrappers

  datatype Row = Row(id: nat, session: string, waId: string, createdAt: int, payload: string)

  predicate Newer(a: Row, b: Row) {
    a.createdAt > b.createdAt || (a.createdAt == b.createdAt && a.id > b.id)
  }

  /** Row ids are unique, and so is a message id within a session. */
  ghost predicate WellFormed(table: set<Row>) {
    && (forall a, b :: a in table && b in table && a.id == b.id ==> a == b)
    && (forall a, b :: a in table && b in table && a.session == b.session && a.waId == b.waId ==> a == b)
  }

  function RowsIn(table: set<Row>, session: string): set<Row> {
    set r | r in table && r.session == session
  }

  function NewerThan(rows: set<Row>, r: Row): set<Row> {
    set x | x in rows && Newer(x, r)
  }

  /** `kept` is what remains of `rows` when all but the newest `limit` go. */
  ghost predicate NewestOf(kept: set<Row>, rows: set<Row>, limit: nat) {
    && kept <= rows
    && |kept| == (if |rows| <= limit then |rows| else limit)
    && forall a, b :: a in kept && b in rows - kept ==> Newer(a, b)
  }

  /** What the database answers to the upsert; `Stored` tells the id of the row written. */
  datatype Outcome = Stored(id: nat) | NoParentSession | Failed

  /** An upsert leaves the id of an existing row alone and gives a new row an unused one. */
  ghost predicate IdFits(table: set<Row>, w: Row) {
    forall r :: r in table ==> (r.id == w.id <==> SameKey(r, w))
  }

  predicate SameKey(a: Row, b: Row) {
    a.session == b.session && a.waId == b.waId
  }

  function Upserted(table: set<Row>, w: Row): set<Row> {
    (set r | r in table && !SameKey(r, w)) + {w}
  }

  /** Other sessions' rows are the same in both tables. */
  ghost predicate OthersAlike(a: set<Row>, b: set<Row>, session: string) {
    forall r: Row :: r.session != session ==> (r in a <==> r in b)
  }

  class Store {
    var table: set<Row>
    var orphanWarned: set<string>

    ghost predicate Valid()
      reads this
    {
      WellFormed(table)
    }

    constructor ()
      ensures Valid() && table == {} && orphanWarned == {}
    {
      table, orphanWarned := {}, {};
    }

    /** put; `thrown` tells whether the database's error is passed on. */
    method Put(session: string, waId: Option<string>, payload: string, now: int, outcome: Outcome, limit: nat)
      returns (thrown: bool)
      requires Valid() && limit > 0
      requires outcome.Stored? && waId.Some? ==> IdFits(table, Row(outcome.id, session, waId.value, now, payload))
      modifies this
      ensures Valid() && OthersAlike(table, old(table), session)
      ensures waId.None? || waId.value == "" || !outcome.Stored? ==> table == old(table)
      ensures thrown <==> waId.Some? && waId.value != "" && outcome.Failed?
      ensures waId.Some? && waId.value != "" && outcome.Stored? ==>
                var w := Row(outcome.id, session, waId.value, now, payload);
                NewestOf(RowsIn(table, session), RowsIn(Upserted(old(table), w), session), limit)
    {
      thrown := false;
      if waId.None? || waId.value == "" {
        return;
      }
      match outcome
      case Failed => thrown := true;
      case NoParentSession => orphanWarned := orphanWarned + {session};
      case Stored(id) =>
        table := Upserted(table, Row(id, session, waId.value, now, payload));
        EnforceLimit(session, limit);
    }

    /** enforceLimit: the row at position `limit`, newest first, and everything not newer goes. */
    method EnforceLimit(session: string, limit: nat)
      requires Valid() && limit > 0
      modifies this`table
      ensures Valid() && table <= old(table) && OthersAlike(table, old(table), session)
      ensures NewestOf(RowsIn(table, session), RowsIn(old(table), session), limit)
    {
      var rows := RowsIn(table, session);
      if cutoff :| cutoff in rows && |NewerThan(rows, cutoff)| == limit {
        table := set r | r in table && !(r.session == session && !Newer(r, cutoff));
        CutoffLeavesNewest(rows, cutoff);
        assert RowsIn(table, session) == NewerThan(rows, cutoff);
      } else {
        if limit < |rows| {
          var r := RankExists(rows, limit);
        }
      }
    }
  }

  // ---- Ranks ----

  ghost predicate DistinctIds(rows: set<Row>) {
    forall a, b :: a in rows && b in rows && a.id == b.id ==> a == b
  }

  lemma {:induction false} NewestExists(rows: set<Row>) returns (m: Row)
    requires rows != {} && DistinctIds(rows)
    ensures m in rows && forall r :: r in rows && r != m ==> Newer(m, r)
  {
    m :| m in rows;
    var rest := rows - {m};
    assert forall r :: r in rows && r != m ==> r in rest;
    if rest != {} {
      var n := NewestExists(rest);
      if !Newer(m, n) {
        m := n;
      }
    }
  }

  /** Every position below the number of rows is taken. */
  lemma {:induction false} RankExists(rows: set<Row>, k: nat) returns (r: Row)
    requires DistinctIds(rows) && k < |rows|
    ensures r in rows && |NewerThan(rows, r)| == k
  {
    var m := NewestExists(rows);
    if k == 0 {
      r := m;
      assert NewerThan(rows, r) == {};
    } else {
      r := RankExists(rows - {m}, k - 1);
      assert NewerThan(rows, r) == NewerThan(rows - {m}, r) + {m};
    }
  }

  lemma CutoffLeavesNewest(rows: set<Row>, cutoff: Row)
    requires DistinctIds(rows) && cutoff in rows
    ensures NewestOf(NewerThan(rows, cutoff), rows, |NewerThan(rows, cutoff)|)
  {
    Smaller(NewerThan(rows, cutoff), rows);
  }

  lemma Smaller(a: set<Row>, b: set<Row>)
    requires a <= b
    ensures |a| <= |b| && (|a| == |b| ==> a == b)
  {
    assert b == a + (b - a);
  }

  /** A row is kept exactly when fewer than `limit` rows are newer. */
  lemma KeptExactlyWhen(kept: set<Row>, rows: set<Row>, limit: nat, r: Row)
    requires DistinctIds(rows) && NewestOf(kept, rows, limit) && r in rows
    ensures r in kept <==> |NewerThan(rows, r)| < limit
  {
    if r in kept {
      forall x | x in NewerThan(rows, r) ensures x in kept - {r} {
        assert x !in kept ==> Newer(r, x);
      }
      Smaller(NewerThan(rows, r), kept - {r});
    } else {
      Smaller(kept, rows);
      assert kept <= NewerThan(rows, r);
      Smaller(kept, NewerThan(rows, r));
    }
  }

  /** There is only one way to keep the newest. */
  lemma NewestIsUnique(a: set<Row>, b: set<Row>, rows: set<Row>, limit: nat)
    requires DistinctIds(rows) && NewestOf(a, rows, limit) && NewestOf(b, rows, limit)
    ensures a == b
  {
    forall r | r in rows ensures r in a <==> r in b {
      KeptExactlyWhen(a, rows, limit, r);
      KeptExactlyWhen(b, rows, limit, r);
    }
  }

  // ---- Any run of puts: the store holds the last `limit` distinct messages ----

  /** A successful put, as the contract of Put leaves it. */
  ghost predicate PutStep(a: set<Row>, w: Row, b: set<Row>, limit: nat) {
    && IdFits(a, w) && WellFormed(b) && OthersAlike(b, a, w.session)
    && NewestOf(RowsIn(b, w.session), RowsIn(Upserted(a, w), w.session), limit)
  }

  /** `tables` are the tables before and after each of the puts, starting from an empty one. */
  ghost predicate IsRun(puts: seq<Row>, tables: seq<set<Row>>, limit: nat) {
    && |tables| == |puts| + 1 && tables[0] == {}
    && forall i :: 0 <= i < |puts| ==> PutStep(tables[i], puts[i], tables[i + 1], limit)
  }

  /** The clock moves on between two puts of a session. */
  ghost predicate ClockAdvances(puts: seq<Row>) {
    forall i, j :: 0 <= i < j < |puts| && puts[i].session == puts[j].session ==> puts[i].createdAt < puts[j].createdAt
  }

  /** `r` is the last put of its message. */
  predicate IsLast(puts: seq<Row>, r: Row) {
    puts != [] &&
    var last := puts[|puts| - 1];
    last == r || (!SameKey(last, r) && IsLast(puts[..|puts| - 1], r))
  }

  /** The messages of the session put after the last put of this one. */
  function PutSince(puts: seq<Row>, session: string, waId: string): set<string> {
    if puts == [] then {}
    else
      var before, last := puts[..|puts| - 1], puts[|puts| - 1];
      if last.session != session then PutSince(before, session, waId)
      else if last.waId == waId then {}
      else PutSince(before, session, waId) + {last.waId}
  }

  /** In every run the rows are the last puts of the `limit` most recent distinct messages of each session. */
  lemma {:induction false} LastDistinctAreKept(puts: seq<Row>, tables: seq<set<Row>>, limit: nat, r: Row)
    requires limit > 0 && IsRun(puts, tables, limit) && ClockAdvances(puts)
    ensures r in tables[|puts|] <==> IsLast(puts, r) && |PutSince(puts, r.session, r.waId)| < limit
  {
    if puts != [] {
      var n := |puts| - 1;
      var before, x := puts[..n], puts[n];
      forall q ensures q in tables[n] <==> IsLast(before, q) && |PutSince(before, q.session, q.waId)| < limit {
        LastDistinctAreKept(before, tables[..n + 1], limit, q);
      }
      assert PutStep(tables[n], x, tables[n + 1], limit);
      if r.session == x.session {
        StepKeepsLast(puts, tables[n], tables[n + 1], limit, r);
      }
    }
  }

  ghost predicate HoldsLast(puts: seq<Row>, table: set<Row>, limit: nat) {
    forall r :: r in table <==> IsLast(puts, r) && |PutSince(puts, r.session, r.waId)| < limit
  }

  lemma StepKeepsLast(puts: seq<Row>, a: set<Row>, b: set<Row>, limit: nat, r: Row)
    requires limit > 0 && puts != [] && ClockAdvances(puts)
    requires HoldsLast(puts[..|puts| - 1], a, limit) && PutStep(a, puts[|puts| - 1], b, limit)
    requires r.session == puts[|puts| - 1].session && DistinctIds(Upserted(a, puts[|puts| - 1]))
    ensures r in b <==> IsLast(puts, r) && |PutSince(puts, r.session, r.waId)| < limit
  {
    var before, x := puts[..|puts| - 1], puts[|puts| - 1];
    var up := RowsIn(Upserted(a, x), x.session);
    if r in up {
      KeptExactlyWhen(RowsIn(b, x.session), up, limit, r);
      RankIsRecency(puts, a, limit, r);
    } else if IsLast(puts, r) {
      Fewer(PutSince(before, r.session, r.waId), PutSince(puts, r.session, r.waId));
    }
  }

  lemma Fewer(a: set<string>, b: set<string>)
    requires a <= b
    ensures |a| <= |b|
  {
    assert b == a + (b - a);
  }

  /** Among the rows after an upsert, as many are newer than `r` as messages were put since. */
  lemma RankIsRecency(puts: seq<Row>, a: set<Row>, limit: nat, r: Row)
    requires puts != [] && ClockAdvances(puts) && HoldsLast(puts[..|puts| - 1], a, limit)
    requires var x := puts[|puts| - 1]; r in RowsIn(Upserted(a, x), x.session)
    ensures var x := puts[|puts| - 1];
            |NewerThan(RowsIn(Upserted(a, x), x.session), r)| == |PutSince(puts, x.session, r.waId)|
  {
    var before, x := puts[..|puts| - 1], puts[|puts| - 1];
    var newer := NewerThan(RowsIn(Upserted(a, x), x.session), r);
    forall q | q in newer ensures q.waId in PutSince(puts, x.session, r.waId) {
      NewerIsSince(puts, q, r);
    }
    forall id | id in PutSince(puts, x.session, r.waId) ensures exists q :: q in newer && q.waId == id {
      var q := SinceIsStored(puts, a, limit, r, id);
    }
    forall q, p | q in newer && p in newer && q.waId == p.waId ensures q == p {
      LastIsUnique(puts, q, p);
    }
    SameSize(newer, PutSince(puts, x.session, r.waId));
  }

  lemma {:induction false} LastIsUnique(puts: seq<Row>, q: Row, p: Row)
    requires IsLast(puts, q) && IsLast(puts, p) && SameKey(q, p)
    ensures q == p
  {
    if puts[|puts| - 1] != q {
      LastIsUnique(puts[..|puts| - 1], q, p);
    }
  }

  /** A message put since a stored one is stored, and newer. */
  lemma SinceIsStored(puts: seq<Row>, a: set<Row>, limit: nat, r: Row, id: string) returns (q: Row)
    requires puts != [] && ClockAdvances(puts) && HoldsLast(puts[..|puts| - 1], a, limit)
    requires var x := puts[|puts| - 1];
             r in RowsIn(Upserted(a, x), x.session) && id in PutSince(puts, x.session, r.waId)
    ensures var x := puts[|puts| - 1]; q in NewerThan(RowsIn(Upserted(a, x), x.session), r) && q.waId == id
  {
    var before, x := puts[..|puts| - 1], puts[|puts| - 1];
    q := SinceIsLast(puts, x.session, r.waId, id);
    NewerIsSince(puts, q, r);
    if !SameKey(q, x) {
      SinceIsNested(before, x.session, r.waId, id);
      assert q in a;
    }
  }

  lemma {:induction false} SameSize(rows: set<Row>, ids: set<string>)
    requires forall a, b :: a in rows && b in rows && a.waId == b.waId ==> a == b
    requires forall r :: r in rows ==> r.waId in ids
    requires forall id :: id in ids ==> exists r :: r in rows && r.waId == id
    ensures |rows| == |ids|
  {
    if rows == {} {
      assert ids == {};
    } else {
      var r :| r in rows;
      forall id | id in ids - {r.waId} ensures exists q :: q in rows - {r} && q.waId == id {
        var q :| q in rows && q.waId == id;
        assert q in rows - {r};
      }
      SameSize(rows - {r}, ids - {r.waId});
    }
  }

  lemma {:induction false} LastWasPut(puts: seq<Row>, r: Row) returns (i: nat)
    requires IsLast(puts, r)
    ensures i < |puts| && puts[i] == r
  {
    var n := |puts| - 1;
    if puts[n] == r {
      i := n;
    } else {
      i := LastWasPut(puts[..n], r);
    }
  }

  /** Of two last puts of a session, the newer is the one made since the other. */
  lemma {:induction false} NewerIsSince(puts: seq<Row>, a: Row, b: Row)
    requires ClockAdvances(puts) && IsLast(puts, a) && IsLast(puts, b) && a.session == b.session
    ensures Newer(a, b) <==> a.waId in PutSince(puts, b.session, b.waId)
  {
    var n := |puts| - 1;
    var before := puts[..n];
    if puts[n] == a && a != b {
      var i := LastWasPut(before, b);
    } else if puts[n] == b && a != b {
      var i := LastWasPut(before, a);
    } else if a != b {
      NewerIsSince(before, a, b);
    } else {
      NotSinceItself(puts, a.session, a.waId);
    }
  }

  lemma {:induction false} NotSinceItself(puts: seq<Row>, session: string, waId: string)
    ensures waId !in PutSince(puts, session, waId)
  {
    if puts != [] {
      NotSinceItself(puts[..|puts| - 1], session, waId);
    }
  }

  lemma {:induction false} SinceIsLast(puts: seq<Row>, session: string, waId: string, id: string) returns (q: Row)
    requires id in PutSince(puts, session, waId)
    ensures IsLast(puts, q) && q.session == session && q.waId == id
  {
    var n := |puts| - 1;
    if puts[n].session == session && puts[n].waId == id {
      q := puts[n];
    } else {
      q := SinceIsLast(puts[..n], session, waId, id);
    }
  }

  /** What came after a later message also came after an earlier one. */
  lemma {:induction false} SinceIsNested(puts: seq<Row>, session: string, waId: string, id: string)
    requires id in PutSince(puts, session, waId)
    ensures PutSince(puts, session, id) <= PutSince(puts, session, waId) - {id}
    ensures |PutSince(puts, session, id)| < |PutSince(puts, session, waId)|
  {
    var n := |puts| - 1;
    if puts[n].session != session || puts[n].waId != id {
      SinceIsNested(puts[..n], session, waId, id);
    }
    Fewer(PutSince(puts, session, id), PutSince(puts, session, waId) - {id});
  }
}
