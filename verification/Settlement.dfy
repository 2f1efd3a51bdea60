/** What confirmed BTC and LTC invoices were paid, and which pending invoices the memory tracks. */
module Settlement {
  import opened Domain
  import opened Confirmations
  import opened Lifecycle
  import opened Invariants
  import Amounts
  import P = Pool
  import Steps
  import Frames

  type Observed = map<TxId, seq<Output>>

  // ----- Settlement -----

  /** A credited invoice names an observed transaction that pays its address exactly the actual amount, at least the
      required one; a confirmed invoice's transaction had the stored number of confirmations. */
  predicate Paid(d: Db, b: BaseCoin, id: InvoiceId, seen: Observed)
    requires id in d.invoices
  {
    var r := d.invoices[id];
    && (r.txId.Some? ==>
          && r.txId.value in seen
          && r.actual == Some(Amounts.PaidTo(b, seen[r.txId.value], r.address))
          && r.required <= r.actual.value)
    && (r.status == CONFIRMED ==> r.txId.Some? && id in d.confs && Uint64(r.confirmations) <= d.confs[id])
  }

  ghost predicate Settled(d: Db, b: BaseCoin, seen: Observed) {
    forall id :: Owns(d, b, id) ==> Paid(d, b, id, seen)
  }

  /** The processor handed over the amount that its verify handler computes for an observed transaction. */
  predicate VerdictOk(b: BaseCoin, act: Act, seen: Observed) {
    act.DoCheckTx? ==> act.tx in seen && (Utxo(b) ==> act.verdict == Some(Amounts.PaidTo(b, seen[act.tx], act.a)))
  }

  lemma MarkSettles(l: Local, b: BaseCoin, a: Address, amount: nat, tx: TxId, sql: bool, seen: Observed)
    requires Settled(l.db, b, seen) && a in l.mem.pending && EntryOk(l.db, b, l.mem, a)
    requires l.mem.pending[a].required <= amount && tx in seen && amount == Amounts.PaidTo(b, seen[tx], a)
    ensures Settled(MarkMempool(l, a, amount, tx, sql).db, b, seen)
  {
    var d' := MarkMempool(l, a, amount, tx, sql).db;
    forall id | Owns(d', b, id)
      ensures Paid(d', b, id, seen)
    {
      assert Owns(l.db, b, id) && Paid(l.db, b, id, seen);
    }
  }

  lemma ExpireSettles(l: Local, b: BaseCoin, id: InvoiceId, a: Address, sql: bool, seen: Observed)
    requires Settled(l.db, b, seen)
    ensures Settled(Expire(l, id, a, sql).db, b, seen)
  {
    var d' := Expire(l, id, a, sql).db;
    forall i | Owns(d', b, i)
      ensures Paid(d', b, i, seen)
    {
      assert Owns(l.db, b, i) && Paid(l.db, b, i, seen);
    }
  }

  lemma ConfirmSettles(l: Local, b: BaseCoin, a: Address, reply: Reply, sql: bool, seen: Observed)
    requires Settled(l.db, b, seen) && a in l.mem.pending && EntryOk(l.db, b, l.mem, a)
    ensures Settled(Confirm(l, a, reply, sql).db, b, seen)
  {
    var inv := l.mem.pending[a];
    if inv.txId.Some? && reply.Rejected? {
      ExpireSettles(l, b, inv.id, inv.address, sql, seen);
    } else {
      var d' := Confirm(l, a, reply, sql).db;
      forall i | Owns(d', b, i)
        ensures Paid(d', b, i, seen)
      {
        assert Owns(l.db, b, i) && Paid(l.db, b, i, seen);
      }
    }
  }

  lemma JudgedSettles(l: Local, b: BaseCoin, a: Address, tx: TxId, amount: nat, markSql: bool, reply: Reply, sql: bool,
                      seen: Observed)
    requires Inv(l, b) && Settled(l.db, b, seen) && a in l.mem.pending && l.mem.pending[a].status == PENDING
    requires l.mem.pending[a].required <= amount && tx in seen && amount == Amounts.PaidTo(b, seen[tx], a)
    ensures var l1 := MarkMempool(l, a, amount, tx, markSql);
            a in l1.mem.pending && Settled(Confirm(l1, a, reply, sql).db, b, seen)
  {
    var l1 := MarkMempool(l, a, amount, tx, markSql);
    assert EntryOk(l.db, b, l.mem, a);
    MarkSettles(l, b, a, amount, tx, markSql, seen);
    Steps.MarkKeeps(l, b, a, amount, tx, markSql);
    assert EntryOk(l1.db, b, l1.mem, a);
    ConfirmSettles(l1, b, a, reply, sql, seen);
  }

  lemma CheckTxSettles(l: Local, b: BaseCoin, act: Act, seen: Observed)
    requires Inv(l, b) && Utxo(b) && Settled(l.db, b, seen) && act.DoCheckTx? && ActEnabled(l, act)
    requires VerdictOk(b, act, seen)
    ensures Settled(Do(l, b, act).db, b, seen)
  {
    var inv := l.mem.pending[act.a];
    if act.verdict.Some? && inv.required <= act.verdict.value && inv.status == PENDING {
      JudgedSettles(l, b, act.a, act.tx, act.verdict.value, act.markSql, act.reply, act.sql, seen);
      var l1 := MarkMempool(l, act.a, act.verdict.value, act.tx, act.markSql);
      var l' := Do(l, b, act);
      assert l'.db == l.db || l' == Confirm(l1, act.a, act.reply, act.sql);
    }
  }

  lemma {:induction false} DoSettles(l: Local, b: BaseCoin, act: Act, seen: Observed)
    requires Inv(l, b) && Utxo(b) && Settled(l.db, b, seen) && ActEnabled(l, act) && VerdictOk(b, act, seen)
    ensures Settled(Do(l, b, act).db, b, seen)
  {
    match act
    case DoCreate(_, _, _, _) =>
      forall id | Owns(Do(l, b, act).db, b, id)
        ensures Paid(Do(l, b, act).db, b, id, seen)
      {
        assert id in l.db.invoices ==> Owns(l.db, b, id) && Paid(l.db, b, id, seen);
      }
    case DoCheckTx(_, _, _, _, _, _) => CheckTxSettles(l, b, act, seen);
    case DoCheckBlock(a, reply, sql) =>
      assert EntryOk(l.db, b, l.mem, a);
      ConfirmSettles(l, b, a, reply, sql, seen);
    case DoFire(id, sql) =>
      var t := l.mem.timers[id];
      ExpireSettles(TimerExit(l, id), b, id, t.address, sql && !t.cancelled, seen);
    case DoTimerExit(_) =>
    case DoRelease(_, _) =>
      assert Do(l, b, act).db.invoices == l.db.invoices && Do(l, b, act).db.confs == l.db.confs;
      forall id | Owns(Do(l, b, act).db, b, id)
        ensures Paid(Do(l, b, act).db, b, id, seen)
      {
        assert Owns(l.db, b, id) && Paid(l.db, b, id, seen);
      }
  }

  lemma FrameSettles(d: Db, d': Db, b: BaseCoin, seen: Observed)
    requires Settled(d, b, seen) && Frames.SameRows(d, d', b)
    ensures Settled(d', b, seen)
  {
    forall id | Owns(d', b, id)
      ensures Paid(d', b, id, seen)
    {
      assert Owns(d, b, id) && Paid(d, b, id, seen);
    }
  }

  lemma ShiftSettles(d: Db, now: int, b: BaseCoin, seen: Observed)
    requires Settled(d, b, seen)
    ensures Settled(Shift(d, now), b, seen)
  {
    var d' := Shift(d, now);
    forall id | Owns(d', b, id)
      ensures Paid(d', b, id, seen)
    {
      assert Owns(d, b, id) && Paid(d, b, id, seen);
    }
  }

  lemma ObserveSettles(d: Db, b: BaseCoin, seen: Observed, tx: TxId, outs: seq<Output>)
    requires Settled(d, b, seen) && tx !in seen
    ensures Settled(d, b, seen[tx := outs])
  {
    forall id | Owns(d, b, id)
      ensures Paid(d, b, id, seen[tx := outs])
    {
      assert Paid(d, b, id, seen);
    }
  }

  // ----- Tracked invoices -----

  predicate TrackedAs(d: Db, m: Memory, id: InvoiceId)
    requires id in d.invoices
  {
    d.invoices[id].address in m.pending && m.pending[d.invoices[id].address].id == id
  }

  ghost predicate AllTracked(d: Db, b: BaseCoin, m: Memory) {
    forall id :: PendingIn(d, b, id) ==> TrackedAs(d, m, id)
  }

  /** confirmCONFIRMED or the expireInvoice it calls reaches LoadAndDelete but the UPDATE fails. */
  predicate ConfirmStrands(inv: Invoice, reply: Reply, sql: bool) {
    && inv.txId.Some? && !sql
    && (reply.Rejected? || (reply.Seen? && Uint64(inv.confirmations) <= reply.confirmations))
  }

  /** The step removes an entry from memory without a terminal UPDATE: a failed SQL transaction after LoadAndDelete, a
      check that marks and then waits for itself, or a cancelled timer that still takes its expiry branch. */
  predicate Strands(l: Local, act: Act)
    requires ActEnabled(l, act)
  {
    match act
    case DoCheckTx(a, tx, verdict, markSql, reply, sql) =>
      var inv := l.mem.pending[a];
      && verdict.Some? && inv.required <= verdict.value && inv.status == PENDING
      && ConfirmStrands(MarkMempool(l, a, verdict.value, tx, markSql).mem.pending[a], reply, sql && !reply.Rejected?)
    case DoCheckBlock(a, reply, sql) => ConfirmStrands(l.mem.pending[a], reply, sql)
    case DoFire(id, sql) => l.mem.timers[id].address in l.mem.pending && (l.mem.timers[id].cancelled || !sql)
    case _ => false
  }

  lemma ConfirmTracks(l: Local, b: BaseCoin, a: Address, reply: Reply, sql: bool)
    requires ExclusiveOk(l.db, b, l.mem) && AllTracked(l.db, b, l.mem)
    requires a in l.mem.pending && EntryOk(l.db, b, l.mem, a)
        && l.db.invoices[l.mem.pending[a].id].id == l.mem.pending[a].id
    ensures var l' := Confirm(l, a, reply, sql);
            AllTracked(l'.db, b, l'.mem) <==> !ConfirmStrands(l.mem.pending[a], reply, sql)
  {
    var inv := l.mem.pending[a];
    var l' := Confirm(l, a, reply, sql);
    if ConfirmStrands(inv, reply, sql) {
      assert PendingIn(l'.db, b, inv.id) && !TrackedAs(l'.db, l'.mem, inv.id);
    } else {
      forall id | PendingIn(l'.db, b, id)
        ensures TrackedAs(l'.db, l'.mem, id)
      {
        assert PendingIn(l.db, b, id) && TrackedAs(l.db, l.mem, id);
      }
    }
  }

  lemma MarkTracks(l: Local, b: BaseCoin, a: Address, amount: nat, tx: TxId, sql: bool)
    requires AllTracked(l.db, b, l.mem) && a in l.mem.pending && EntryOk(l.db, b, l.mem, a)
    ensures var l' := MarkMempool(l, a, amount, tx, sql); AllTracked(l'.db, b, l'.mem)
  {
    var l' := MarkMempool(l, a, amount, tx, sql);
    forall id | PendingIn(l'.db, b, id)
      ensures TrackedAs(l'.db, l'.mem, id)
    {
      assert PendingIn(l.db, b, id) && TrackedAs(l.db, l.mem, id);
    }
  }

  /** An armed timer whose address is tracked is the timer of the entry. */
  lemma FiresOwnEntry(l: Local, b: BaseCoin, id: InvoiceId)
    requires Inv(l, b) && ExclusiveOk(l.db, b, l.mem)
    ensures Armed(l.mem, id) && l.mem.timers[id].address in l.mem.pending ==>
              l.mem.pending[l.mem.timers[id].address].id == id
  {
    if Armed(l.mem, id) && l.mem.timers[id].address in l.mem.pending {
      var a := l.mem.timers[id].address;
      assert TimerOk(l.db, b, l.mem, id) && EntryOk(l.db, b, l.mem, a);
      assert PendingIn(l.db, b, l.mem.pending[a].id) && InUse(l.db, b, a);
      assert !Stale(l.db, b, l.mem, id);
    }
  }

  lemma FireStrands(l: Local, b: BaseCoin, id: InvoiceId, sql: bool)
    requires Inv(l, b) && id in l.mem.timers && Strands(l, DoFire(id, sql))
    ensures var l' := Fire(l, id, sql); !AllTracked(l'.db, b, l'.mem)
  {
    var l' := Fire(l, id, sql);
    var e := l.mem.pending[l.mem.timers[id].address].id;
    assert EntryOk(l.db, b, l.mem, l.mem.timers[id].address);
    assert PendingIn(l'.db, b, e) && !TrackedAs(l'.db, l'.mem, e);
  }

  lemma FireKeepsTracked(l: Local, b: BaseCoin, id: InvoiceId, sql: bool, i: InvoiceId)
    requires Inv(l, b) && ExclusiveOk(l.db, b, l.mem) && AllTracked(l.db, b, l.mem) && id in l.mem.timers
    requires !Strands(l, DoFire(id, sql)) && PendingIn(Fire(l, id, sql).db, b, i)
    ensures var l' := Fire(l, id, sql); TrackedAs(l'.db, l'.mem, i)
  {
    assert TimerOk(l.db, b, l.mem, id) && RowOk(l.db, id);
    FiresOwnEntry(l, b, id);
    assert PendingIn(l.db, b, i) && TrackedAs(l.db, l.mem, i);
  }

  lemma FireTracks(l: Local, b: BaseCoin, id: InvoiceId, sql: bool)
    requires Inv(l, b) && ExclusiveOk(l.db, b, l.mem) && AllTracked(l.db, b, l.mem) && id in l.mem.timers
    ensures var l' := Fire(l, id, sql); AllTracked(l'.db, b, l'.mem) <==> !Strands(l, DoFire(id, sql))
  {
    var l' := Fire(l, id, sql);
    if Strands(l, DoFire(id, sql)) {
      FireStrands(l, b, id, sql);
    } else {
      forall i | PendingIn(l'.db, b, i)
        ensures TrackedAs(l'.db, l'.mem, i)
      {
        FireKeepsTracked(l, b, id, sql, i);
      }
    }
  }

  lemma {:induction false} CreateTracks(l: Local, b: BaseCoin, req: Request, id: InvoiceId, now: int, pick: Address)
    requires Inv(l, b) && ExclusiveOk(l.db, b, l.mem) && AllTracked(l.db, b, l.mem)
    requires ActEnabled(l, DoCreate(req, id, now, pick))
    ensures var l' := Create(l, b, req, id, now, pick); AllTracked(l'.db, b, l'.mem)
  {
    var l' := Create(l, b, req, id, now, pick);
    var r := P.Allocate(l.db.pool, req.user, req.coin, b, pick);
    if Home(req.coin) == Some(b) && r.Some? {
      Steps.AllocateClaims(l.db.pool, req.user, req.coin, b, pick);
      assert r.value.address in l.mem.pending ==> EntryOk(l.db, b, l.mem, r.value.address);
      forall i | PendingIn(l'.db, b, i)
        ensures TrackedAs(l'.db, l'.mem, i)
      {
        assert i != id ==> PendingIn(l.db, b, i) && TrackedAs(l.db, l.mem, i);
      }
    }
  }

  /** A blocked check strands its invoice, which stays as it was in the table. */
  lemma BlockTracks(l: Local, b: BaseCoin, a: Address)
    requires a in l.mem.pending && EntryOk(l.db, b, l.mem, a)
    ensures var l' := Block(l, a); !AllTracked(l'.db, b, l'.mem)
  {
    assert PendingIn(l.db, b, l.mem.pending[a].id);
    assert !TrackedAs(l.db, Block(l, a).mem, l.mem.pending[a].id);
  }

  lemma JudgedTracks(l: Local, b: BaseCoin, a: Address, tx: TxId, amount: nat, markSql: bool, reply: Reply, sql: bool)
    requires Inv(l, b) && ExclusiveOk(l.db, b, l.mem) && AllTracked(l.db, b, l.mem)
    requires a in l.mem.pending && l.mem.pending[a].status == PENDING
    ensures var l1 := MarkMempool(l, a, amount, tx, markSql);
            && a in l1.mem.pending && l1.mem.pending[a].address == a
            && var l' := Confirm(l1, a, reply, sql);
               AllTracked(l'.db, b, l'.mem) <==> !ConfirmStrands(l1.mem.pending[a], reply, sql)
  {
    var inv := l.mem.pending[a];
    var l1 := MarkMempool(l, a, amount, tx, markSql);
    assert EntryOk(l.db, b, l.mem, a) && RowOk(l.db, inv.id);
    Steps.MarkKeeps(l, b, a, amount, tx, markSql);
    Steps.MarkKeepsExclusive(l, b, a, amount, tx, markSql);
    MarkTracks(l, b, a, amount, tx, markSql);
    assert EntryOk(l1.db, b, l1.mem, a);
    ConfirmTracks(l1, b, a, reply, sql);
  }

  lemma {:induction false} CheckTxTracks(l: Local, b: BaseCoin, a: Address, tx: TxId, verdict: Option<nat>,
                                         markSql: bool, reply: Reply, sql: bool)
    requires Inv(l, b) && ExclusiveOk(l.db, b, l.mem) && AllTracked(l.db, b, l.mem)
    requires a in l.mem.pending
    ensures var l' := CheckTx(l, a, tx, verdict, markSql, reply, sql);
            AllTracked(l'.db, b, l'.mem) <==> !Strands(l, DoCheckTx(a, tx, verdict, markSql, reply, sql))
  {
    var inv := l.mem.pending[a];
    assert EntryOk(l.db, b, l.mem, a);
    if verdict.Some? && inv.required <= verdict.value && inv.status == PENDING {
      BlockTracks(l, b, a);
      JudgedTracks(l, b, a, tx, verdict.value, markSql, reply, sql);
    }
  }

  /** A step loses track of a pending invoice exactly if it strands one. */
  lemma DoTracks(l: Local, b: BaseCoin, act: Act)
    requires Inv(l, b) && ExclusiveOk(l.db, b, l.mem) && AllTracked(l.db, b, l.mem)
    requires ActEnabled(l, act)
    ensures var l' := Do(l, b, act); AllTracked(l'.db, b, l'.mem) <==> !Strands(l, act)
  {
    match act
    case DoCreate(req, id, now, pick) => CreateTracks(l, b, req, id, now, pick);
    case DoCheckTx(a, tx, verdict, markSql, reply, sql) => CheckTxTracks(l, b, a, tx, verdict, markSql, reply, sql);
    case DoCheckBlock(a, reply, sql) =>
      assert EntryOk(l.db, b, l.mem, a) && RowOk(l.db, l.mem.pending[a].id);
      ConfirmTracks(l, b, a, reply, sql);
    case DoFire(id, sql) => FireTracks(l, b, id, sql);
    case DoTimerExit(id) => QuietActTracks(l, b, act);
    case DoRelease(a, sql) => QuietActTracks(l, b, act);
  }

  lemma QuietActTracks(l: Local, b: BaseCoin, act: Act)
    requires AllTracked(l.db, b, l.mem) && ActEnabled(l, act) && (act.DoTimerExit? || act.DoRelease?)
    ensures var l' := Do(l, b, act); AllTracked(l'.db, b, l'.mem)
  {
    var l' := Do(l, b, act);
    forall i | PendingIn(l'.db, b, i)
      ensures TrackedAs(l'.db, l'.mem, i)
    {
      assert PendingIn(l.db, b, i) && TrackedAs(l.db, l.mem, i);
    }
  }

  /** Loading all pending rows tracks every pending invoice of the coin. */
  lemma LoadTracksAll(d: Db, b: BaseCoin, rows: seq<Invoice>)
    requires RowsOk(d) && Frames.Lists(d, rows) && Exclusive(d, b)
    ensures AllTracked(d, b, Load(b, rows))
  {
    Frames.LoadKeepsMem(d, b, rows);
    forall id | PendingIn(d, b, id)
      ensures TrackedAs(d, Load(b, rows), id)
    {
      var a := d.invoices[id].address;
      var i :| 0 <= i < |rows| && rows[i] == d.invoices[id];
      Frames.LoadTracks(b, rows, a);
      assert rows[i].address == a && Home(rows[i].coin) == Some(b);
      assert EntryOk(d, b, Load(b, rows), a) && RowOk(d, id);
    }
  }
}
