/** What a step leaves alone: the other processors' rows and pool, the secured addresses under a key change, and the
    tables under a restart. */
module Frames {
  import opened Domain
  import opened Lifecycle
  import opened Invariants
  import P = Pool
  import Steps

  // ----- Other processors -----

  ghost predicate SameRows(d: Db, d': Db, b: BaseCoin) {
    && (forall id :: Owns(d, b, id) <==> Owns(d', b, id))
    && (forall id :: Owns(d, b, id) ==> d'.invoices[id] == d.invoices[id])
    && (forall id :: Owns(d, b, id) && id in d.confs ==> id in d'.confs && d'.confs[id] == d.confs[id])
  }

  lemma MarkFrame(l: Local, b: BaseCoin, a: Address, amount: nat, tx: TxId, sql: bool, other: BaseCoin)
    requires a in l.mem.pending && EntryOk(l.db, b, l.mem, a) && other != b
    ensures var l' := MarkMempool(l, a, amount, tx, sql);
            SameRows(l.db, l'.db, other) && (SetMempool(l.db, l.mem.pending[a].id, amount, tx).Some?
                ==> EntryOk(l'.db, b, l'.mem, a))
  {
  }

  lemma ConfirmFrame(l: Local, b: BaseCoin, a: Address, reply: Reply, sql: bool, other: BaseCoin)
    requires a in l.mem.pending && EntryOk(l.db, b, l.mem, a) && other != b
    ensures SameRows(l.db, Confirm(l, a, reply, sql).db, other)
  {
  }

  lemma CheckTxFrame(l: Local, b: BaseCoin, a: Address, tx: TxId, verdict: Option<nat>, markSql: bool, reply: Reply,
                     sql: bool, other: BaseCoin)
    requires a in l.mem.pending && EntryOk(l.db, b, l.mem, a) && other != b
    ensures SameRows(l.db, CheckTx(l, a, tx, verdict, markSql, reply, sql).db, other)
  {
    var inv := l.mem.pending[a];
    if verdict.Some? && inv.required <= verdict.value && inv.status == PENDING {
      MarkFrame(l, b, a, verdict.value, tx, markSql, other);
      var l1 := MarkMempool(l, a, verdict.value, tx, markSql);
      assert EntryOk(l1.db, b, l1.mem, a);
      ConfirmFrame(l1, b, a, reply, sql, other);
    }
  }

  lemma FireFrame(l: Local, b: BaseCoin, id: InvoiceId, sql: bool, other: BaseCoin)
    requires id in l.mem.timers && TimerOk(l.db, b, l.mem, id) && other != b
    ensures SameRows(l.db, Fire(l, id, sql).db, other)
  {
  }

  lemma CreateFrame(l: Local, b: BaseCoin, act: Act, other: BaseCoin)
    requires act.DoCreate? && ActEnabled(l, act) && other != b
    ensures SameRows(l.db, Do(l, b, act).db, other)
  {
  }

  /** A step of one processor leaves the rows of every other coin alone. */
  lemma {:induction false} DoFrame(l: Local, b: BaseCoin, act: Act, other: BaseCoin)
    requires MemOk(l.db, b, l.mem) && ActEnabled(l, act) && other != b
    ensures SameRows(l.db, Do(l, b, act).db, other)
  {
    match act
    case DoCreate(_, _, _, _) => CreateFrame(l, b, act, other);
    case DoCheckTx(a, tx, verdict, markSql, reply, sql) =>
      assert EntryOk(l.db, b, l.mem, a);
      CheckTxFrame(l, b, a, tx, verdict, markSql, reply, sql, other);
    case DoCheckBlock(a, reply, sql) =>
      assert EntryOk(l.db, b, l.mem, a);
      ConfirmFrame(l, b, a, reply, sql, other);
    case DoFire(id, sql) =>
      assert TimerOk(l.db, b, l.mem, id);
      FireFrame(l, b, id, sql, other);
    case DoTimerExit(_) =>
    case DoRelease(_, _) =>
  }

  /** Only creations and releases touch the pool. */
  lemma PoolFrame(l: Local, b: BaseCoin, act: Act)
    requires ActEnabled(l, act) && !act.DoCreate? && !act.DoRelease?
    ensures Do(l, b, act).db.pool == l.db.pool
  {
  }

  lemma FrameKeepsMem(d: Db, d': Db, b: BaseCoin, m: Memory)
    requires MemOk(d, b, m) && SameRows(d, d', b)
    ensures MemOk(d', b, m)
  {
    forall a | a in m.pending
      ensures EntryOk(d', b, m, a) && Armed(m, m.pending[a].id)
    {
      assert EntryOk(d, b, m, a);
    }
    forall t | t in m.timers
      ensures TimerOk(d', b, m, t)
    {
      assert TimerOk(d, b, m, t);
    }
  }

  /** A pending invoice of b stays where it is. */
  lemma FrameKeepsUse(d: Db, d': Db, b: BaseCoin)
    requires SameRows(d, d', b)
    ensures Steps.SamePending(d, d', b)
    ensures forall a :: InUse(d', b, a) <==> InUse(d, b, a)
  {
    forall i
      ensures PendingIn(d, b, i) <==> PendingIn(d', b, i)
    {
      assert Owns(d, b, i) <==> Owns(d', b, i);
    }
    forall a
      ensures InUse(d', b, a) <==> InUse(d, b, a)
    {
      if i :| PendingIn(d, b, i) && d.invoices[i].address == a {
        assert PendingIn(d', b, i) && d'.invoices[i].address == a;
      }
      if i :| PendingIn(d', b, i) && d'.invoices[i].address == a {
        assert PendingIn(d, b, i) && d.invoices[i].address == a;
      }
    }
  }

  // ----- Key updates -----

  lemma UpdateKeysKeepsRows(d: Db, user: UserId, rs: seq<P.KeyRequest>)
    requires RowsOk(d)
    ensures RowsOk(d.(pool := P.UpdateKeys(d.pool, user, rs)))
  {
    var d' := d.(pool := P.UpdateKeys(d.pool, user, rs));
    P.UpdateKeysKeepsPoolOk(d.pool, user, rs);
    forall i | 0 <= i < |d'.audit|
      ensures WriteOk(d', d'.audit[i])
    {
      assert WriteOk(d, d.audit[i]);
    }
    forall id | id in d'.invoices
      ensures RowOk(d', id)
    {
      assert RowOk(d, id);
    }
  }

  // ----- Restart -----

  lemma ShiftKeepsRows(d: Db, now: int)
    requires RowsOk(d)
    ensures RowsOk(Shift(d, now)) && Evolves(d, Shift(d, now))
  {
    var d' := Shift(d, now);
    forall i | 0 <= i < |d'.audit|
      ensures WriteOk(d', d'.audit[i])
    {
      assert WriteOk(d, d.audit[i]);
    }
    forall id | id in d'.invoices
      ensures RowOk(d', id)
    {
      assert RowOk(d, id);
    }
  }

  ghost predicate PendingRows(d: Db, rows: seq<Invoice>) {
    forall i :: 0 <= i < |rows| ==>
          rows[i].id in d.invoices && d.invoices[rows[i].id] == rows[i] && IsPending(rows[i].status)
  }

  /** The rows of FindAllPendingInvoices: every pending row once, in any order. */
  ghost predicate Lists(d: Db, rows: seq<Invoice>) {
    && PendingRows(d, rows)
    && (forall i, j :: 0 <= i < j < |rows| ==> rows[i].id != rows[j].id)
    && (forall id :: id in d.invoices && IsPending(d.invoices[id].status) ==> d.invoices[id] in rows)
  }

  /** Loading pending rows gives a memory that agrees with the database, with nothing to release. */
  lemma {:induction false} LoadKeepsMem(d: Db, b: BaseCoin, rows: seq<Invoice>)
    requires RowsOk(d) && PendingRows(d, rows)
    ensures MemOk(d, b, Load(b, rows)) && Load(b, rows).releases == multiset{}
    ensures forall t :: t in Load(b, rows).timers ==> PendingIn(d, b, t)
    decreases |rows|
  {
    if rows != [] {
      var n := |rows| - 1;
      assert PendingRows(d, rows[..n]) && rows[n].id in d.invoices && d.invoices[rows[n].id] == rows[n];
      LoadKeepsMem(d, b, rows[..n]);
      if Home(rows[n].coin) == Some(b) {
        RegisterKeepsMem(d, b, Load(b, rows[..n]), rows[n]);
      }
    }
  }

  lemma RegisterKeepsMem(d: Db, b: BaseCoin, m: Memory, inv: Invoice)
    requires inv.id in d.invoices && d.invoices[inv.id] == inv && IsPending(inv.status) && Home(inv.coin) == Some(b)
    requires MemOk(d, b, m)
    ensures MemOk(d, b, Register(m, inv))
  {
    var m' := Register(m, inv);
    forall a | a in m'.pending
      ensures EntryOk(d, b, m', a) && Armed(m', m'.pending[a].id)
    {
      assert a in m.pending ==> EntryOk(d, b, m, a);
    }
    forall t | t in m'.timers
      ensures TimerOk(d, b, m', t)
    {
      assert t in m.timers ==> TimerOk(d, b, m, t);
    }
  }

  /** An address is tracked after loading exactly if some loaded row of the processor's coins uses it. */
  lemma {:induction false} LoadTracks(b: BaseCoin, rows: seq<Invoice>, a: Address)
    ensures a in Load(b, rows).pending
       <==> exists i :: 0 <= i < |rows| && rows[i].address == a && Home(rows[i].coin) == Some(b)
    decreases |rows|
  {
    if rows != [] {
      var n := |rows| - 1;
      LoadTracks(b, rows[..n], a);
      if a in Load(b, rows[..n]).pending {
        var i :| 0 <= i < n && rows[..n][i].address == a && Home(rows[..n][i].coin) == Some(b);
        assert rows[i].address == a && Home(rows[i].coin) == Some(b);
      }
      if i :| 0 <= i < |rows| && rows[i].address == a && Home(rows[i].coin) == Some(b) {
        assert i < n ==> rows[..n][i].address == a && Home(rows[..n][i].coin) == Some(b);
      }
    }
  }
}
