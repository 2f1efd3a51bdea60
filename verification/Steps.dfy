/** Every step of a processor keeps its invariant, evolves rows legally and leaves other coins alone. */
module Steps {
  import opened Domain
  import opened Confirmations
  import opened Lifecycle
  import opened Invariants
  import P = Pool
  import Counter

  // ----- confirmPENDING_MEMPOOL -----

  lemma MarkKeepsRows(l: Local, b: BaseCoin, a: Address, amount: nat, tx: TxId, sql: bool)
    requires Inv(l, b) && a in l.mem.pending && l.mem.pending[a].status == PENDING
    ensures var l' := MarkMempool(l, a, amount, tx, sql);
            RowsOk(l'.db) && Evolves(l.db, l'.db)
  {
    var id := l.mem.pending[a].id;
    assert EntryOk(l.db, b, l.mem, a);
    if sql && SetMempool(l.db, id, amount, tx).Some? {
      WriteKeepsRows(l.db, l.db.invoices[id].(status := PENDING_MEMPOOL, actual := Some(amount), txId := Some(tx)));
    }
  }

  lemma MarkKeepsMem(l: Local, b: BaseCoin, a: Address, amount: nat, tx: TxId, sql: bool)
    requires Inv(l, b) && a in l.mem.pending && l.mem.pending[a].status == PENDING
    ensures var l' := MarkMempool(l, a, amount, tx, sql);
            MemOk(l'.db, b, l'.mem)
  {
    var id := l.mem.pending[a].id;
    var l' := MarkMempool(l, a, amount, tx, sql);
    assert EntryOk(l.db, b, l.mem, a);
    forall a' | a' in l'.mem.pending
      ensures EntryOk(l'.db, b, l'.mem, a') && Armed(l'.mem, l'.mem.pending[a'].id)
    {
      assert EntryOk(l.db, b, l.mem, a');
    }
    forall t | t in l'.mem.timers
      ensures TimerOk(l'.db, b, l'.mem, t)
    {
      assert TimerOk(l.db, b, l.mem, t);
    }
  }

  /** The pending invoices and their addresses stay the same. */
  ghost predicate SamePending(d: Db, d': Db, b: BaseCoin) {
    forall i :: && (PendingIn(d, b, i) <==> PendingIn(d', b, i))
                && (PendingIn(d, b, i) ==> d'.invoices[i].address == d.invoices[i].address)
  }

  /** Exclusivity depends on the pending invoices, the releases, the armed timers and the pool only. */
  lemma SameClaimsKeepExclusive(d: Db, d': Db, b: BaseCoin, m: Memory, m': Memory)
    requires ExclusiveOk(d, b, m) && SamePending(d, d', b) && d'.pool == d.pool && m'.releases == m.releases
    requires forall id :: Armed(m', id) ==> Armed(m, id) && m'.timers[id].address == m.timers[id].address
    ensures ExclusiveOk(d', b, m')
  {
    forall id | Stale(d', b, m', id)
      ensures Dead(d'.pool, b, m'.timers[id].address) && !InUse(d', b, m'.timers[id].address)
    {
      assert Stale(d, b, m, id);
    }
  }

  lemma MarkKeepsExclusive(l: Local, b: BaseCoin, a: Address, amount: nat, tx: TxId, sql: bool)
    requires ExclusiveOk(l.db, b, l.mem) && a in l.mem.pending && EntryOk(l.db, b, l.mem, a)
    ensures var l' := MarkMempool(l, a, amount, tx, sql); ExclusiveOk(l'.db, b, l'.mem)
  {
    var l' := MarkMempool(l, a, amount, tx, sql);
    SameClaimsKeepExclusive(l.db, l'.db, b, l.mem, l'.mem);
  }

  /** Removing an entry alone. */
  lemma BlockKeeps(l: Local, b: BaseCoin, a: Address)
    requires Inv(l, b)
    ensures Inv(Block(l, a), b)
  {
    var l' := Block(l, a);
    forall x | x in l'.mem.pending
      ensures EntryOk(l'.db, b, l'.mem, x) && Armed(l'.mem, l'.mem.pending[x].id)
    {
      assert EntryOk(l.db, b, l.mem, x);
    }
    forall t | t in l'.mem.timers
      ensures TimerOk(l'.db, b, l'.mem, t)
    {
      assert TimerOk(l.db, b, l.mem, t);
    }
  }

  // ----- expireInvoice -----

  /** What Expire needs of the state: its row may be expired, and no other entry than the one at a lacks its timer. */
  ghost predicate ExpireOk(l: Local, b: BaseCoin, id: InvoiceId, a: Address, sql: bool) {
    && RowsOk(l.db) && MemOkBut(l.db, b, l.mem, Some(a))
    && Owns(l.db, b, id) && l.db.invoices[id].address == a
    && (sql ==> l.db.invoices[id].status != CONFIRMED)
  }

  lemma ExpireKeepsRows(l: Local, b: BaseCoin, id: InvoiceId, a: Address, sql: bool)
    requires ExpireOk(l, b, id, a, sql)
    ensures var l' := Expire(l, id, a, sql); RowsOk(l'.db) && Evolves(l.db, l'.db)
  {
    assert RowOk(l.db, id);
    if a in l.mem.pending && sql {
      var row := l.db.invoices[id].(status := EXPIRED);
      if row.txId.Some? {
        OwnTxNotTaken(l.db, id);
      }
      WriteKeepsRows(l.db, row);
    }
  }

  lemma {:induction false} ExpireKeepsMem(l: Local, b: BaseCoin, id: InvoiceId, a: Address, sql: bool)
    requires ExpireOk(l, b, id, a, sql) && a in l.mem.pending
    ensures var l' := Expire(l, id, a, sql); MemOk(l'.db, b, l'.mem)
  {
    var l' := Expire(l, id, a, sql);
    assert RowOk(l.db, id);
    forall x | x in l'.mem.pending
      ensures EntryOk(l'.db, b, l'.mem, x) && Armed(l'.mem, l'.mem.pending[x].id)
    {
      assert EntryOk(l.db, b, l.mem, x);
    }
    forall t | t in l'.mem.timers
      ensures TimerOk(l'.db, b, l'.mem, t)
    {
      assert TimerOk(l.db, b, l.mem, t);
    }
  }

  /** A claim on an address moves from the pending row of id to a spawned release. */
  lemma ClaimMoves(d: Db, d': Db, b: BaseCoin, m: Memory, m': Memory, id: InvoiceId, a: Address)
    requires ClaimsOk(d, b, m) && PendingIn(d, b, id) && d.invoices[id].address == a
    requires d'.pool == d.pool && m'.releases == m.releases + multiset{a}
    requires forall i :: PendingIn(d', b, i) <==> PendingIn(d, b, i) && i != id
    requires forall i :: PendingIn(d', b, i) ==> d'.invoices[i] == d.invoices[i]
    ensures ClaimsOk(d', b, m') && !InUse(d', b, a)
  {
    forall i | PendingIn(d', b, i)
      ensures d'.invoices[i].address != a
      ensures m'.releases[d'.invoices[i].address] == 0 && Secured(d'.pool, b, d'.invoices[i].address)
    {
      assert PendingIn(d, b, i) && d.invoices[i].address != a;
    }
    forall x | x in m'.releases
      ensures m'.releases[x] == 1 && Secured(d'.pool, b, x)
    {
      assert x != a ==> x in m.releases;
    }
  }

  /** The timer of the invoice that leaves is gone, or its address is dead. */
  lemma StaleMoves(d: Db, d': Db, b: BaseCoin, m: Memory, m': Memory, id: InvoiceId, a: Address)
    requires ExclusiveOk(d, b, m) && PendingIn(d, b, id) && d.invoices[id].address == a
    requires d'.pool == d.pool && !InUse(d', b, a)
    requires forall i :: PendingIn(d', b, i) <==> PendingIn(d, b, i) && i != id
    requires forall i :: PendingIn(d', b, i) ==> d'.invoices[i] == d.invoices[i]
    requires forall t :: Armed(m', t) ==> Armed(m, t) && m'.timers[t].address == m.timers[t].address
    requires Armed(m', id) ==> m'.timers[id].address == a && Dead(d.pool, b, a)
    ensures StaleOk(d', b, m')
  {
    forall t | Stale(d', b, m', t)
      ensures Dead(d'.pool, b, m'.timers[t].address) && !InUse(d', b, m'.timers[t].address)
    {
      if t != id {
        assert Stale(d, b, m, t);
        forall i | PendingIn(d', b, i)
          ensures d'.invoices[i].address != m'.timers[t].address
        {
          assert PendingIn(d, b, i);
        }
      }
    }
  }

  lemma ExpiredKeepsExclusive(l: Local, b: BaseCoin, id: InvoiceId, a: Address)
    requires RowsOk(l.db) && PendingIn(l.db, b, id) && l.db.invoices[id].address == a && a in l.mem.pending
    requires ExclusiveOk(l.db, b, l.mem)
    requires Armed(l.mem, id) ==> l.mem.timers[id].address == a && Dead(l.db.pool, b, a)
    ensures var l' := Expire(l, id, a, true); ExclusiveOk(l'.db, b, l'.mem)
  {
    var l' := Expire(l, id, a, true);
    assert RowOk(l.db, id);
    ClaimMoves(l.db, l'.db, b, l.mem, l'.mem, id, a);
    StaleMoves(l.db, l'.db, b, l.mem, l'.mem, id, a);
  }

  /** Expiring keeps exclusivity if it expires a pending invoice whose timer is gone or whose address is dead. */
  lemma {:induction false} ExpireKeepsExclusive(l: Local, b: BaseCoin, id: InvoiceId, a: Address, sql: bool)
    requires ExpireOk(l, b, id, a, sql) && ExclusiveOk(l.db, b, l.mem)
    requires a in l.mem.pending && sql ==>
               PendingIn(l.db, b, id) && (Armed(l.mem, id) ==> Dead(l.db.pool, b, a))
    ensures var l' := Expire(l, id, a, sql); ExclusiveOk(l'.db, b, l'.mem)
  {
    if a in l.mem.pending && sql {
      assert Armed(l.mem, id) ==> TimerOk(l.db, b, l.mem, id);
      ExpiredKeepsExclusive(l, b, id, a);
    } else {
      var l' := Expire(l, id, a, sql);
      SameClaimsKeepExclusive(l.db, l'.db, b, l.mem, l'.mem);
    }
  }

  // ----- confirmCONFIRMED -----

  lemma FinishKeeps(l: Local, b: BaseCoin, a: Address, confirmations: nat, sql: bool)
    requires Inv(l, b) && a in l.mem.pending && l.mem.pending[a].txId.Some?
    ensures var l' := Finish(l, l.mem.pending[a], confirmations, sql); RowsOk(l'.db) && Evolves(l.db, l'.db)
  {
    var inv := l.mem.pending[a];
    assert EntryOk(l.db, b, l.mem, a) && RowOk(l.db, inv.id);
    if sql {
      OwnTxNotTaken(l.db, inv.id);
      WriteKeepsRows(l.db, inv.(status := CONFIRMED));
    }
  }

  lemma {:induction false} FinishKeepsMem(l: Local, b: BaseCoin, a: Address, confirmations: nat, sql: bool)
    requires Inv(l, b) && a in l.mem.pending
    ensures var l' := Finish(l, l.mem.pending[a], confirmations, sql); MemOk(l'.db, b, l'.mem)
  {
    var inv := l.mem.pending[a];
    var l' := Finish(l, inv, confirmations, sql);
    assert EntryOk(l.db, b, l.mem, a) && RowOk(l.db, inv.id);
    forall x | x in l'.mem.pending
      ensures EntryOk(l'.db, b, l'.mem, x) && Armed(l'.mem, l'.mem.pending[x].id)
    {
      assert EntryOk(l.db, b, l.mem, x);
    }
    forall t | t in l'.mem.timers
      ensures TimerOk(l'.db, b, l'.mem, t)
    {
      assert TimerOk(l.db, b, l.mem, t);
    }
  }

  lemma FinishKeepsExclusive(l: Local, b: BaseCoin, a: Address, confirmations: nat, sql: bool)
    requires ExclusiveOk(l.db, b, l.mem) && a in l.mem.pending && EntryOk(l.db, b, l.mem, a)
    requires l.db.invoices[l.mem.pending[a].id].id == l.mem.pending[a].id
    ensures var l' := Finish(l, l.mem.pending[a], confirmations, sql); ExclusiveOk(l'.db, b, l'.mem)
  {
    var inv := l.mem.pending[a];
    var l' := Finish(l, inv, confirmations, sql);
    if sql {
      assert l'.db.invoices == l.db.invoices[inv.id := inv.(status := CONFIRMED)];
      ClaimMoves(l.db, l'.db, b, l.mem, l'.mem, inv.id, inv.address);
      StaleMoves(l.db, l'.db, b, l.mem, l'.mem, inv.id, inv.address);
    } else {
      SameClaimsKeepExclusive(l.db, l'.db, b, l.mem, l'.mem);
    }
  }

  lemma {:induction false} ConfirmKeeps(l: Local, b: BaseCoin, a: Address, reply: Reply, sql: bool)
    requires Inv(l, b) && a in l.mem.pending
    ensures var l' := Confirm(l, a, reply, sql); Inv(l', b) && Evolves(l.db, l'.db)
  {
    var inv := l.mem.pending[a];
    assert EntryOk(l.db, b, l.mem, a);
    if inv.txId.None? || reply.Unreachable? {
    } else if reply.Rejected? {
      ExpireKeepsRows(l, b, inv.id, a, sql);
      ExpireKeepsMem(l, b, inv.id, a, sql);
    } else if Uint64(inv.confirmations) <= reply.confirmations {
      FinishKeeps(l, b, a, reply.confirmations, sql);
      FinishKeepsMem(l, b, a, reply.confirmations, sql);
    }
  }

  lemma ConfirmKeepsExclusive(l: Local, b: BaseCoin, a: Address, reply: Reply, sql: bool)
    requires Inv(l, b) && ExclusiveOk(l.db, b, l.mem) && a in l.mem.pending
    requires reply.Rejected? && sql && l.mem.pending[a].txId.Some? ==> Dead(l.db.pool, b, a)
    ensures var l' := Confirm(l, a, reply, sql); ExclusiveOk(l'.db, b, l'.mem)
  {
    assert EntryOk(l.db, b, l.mem, a) && RowOk(l.db, l.mem.pending[a].id);
    if reply.Seen? {
      FinishKeepsExclusive(l, b, a, reply.confirmations, sql);
    } else if reply.Rejected? && l.mem.pending[a].txId.Some? {
      ExpireKeepsExclusive(l, b, l.mem.pending[a].id, a, sql);
    }
  }

  /** The two halves of a transaction check that its guard lets through. */
  lemma MarkKeeps(l: Local, b: BaseCoin, a: Address, amount: nat, tx: TxId, sql: bool)
    requires Inv(l, b) && a in l.mem.pending && l.mem.pending[a].status == PENDING
    ensures var l' := MarkMempool(l, a, amount, tx, sql); Inv(l', b) && Evolves(l.db, l'.db)
  {
    MarkKeepsRows(l, b, a, amount, tx, sql);
    MarkKeepsMem(l, b, a, amount, tx, sql);
  }

  lemma AfterMarkKeeps(l: Local, l1: Local, b: BaseCoin, a: Address, reply: Reply, sql: bool)
    requires Inv(l, b) && Inv(l1, b) && Evolves(l.db, l1.db) && a in l1.mem.pending
    ensures var l' := AfterMark(l, l1, a, reply, sql); Inv(l', b) && Evolves(l.db, l'.db)
  {
    ConfirmKeeps(l1, b, a, reply, sql);
    EvolvesTransitive(l.db, l1.db, Confirm(l1, a, reply, sql).db);
    BlockKeeps(l, b, l1.mem.pending[a].address);
  }

  lemma {:induction false} CheckTxKeeps(l: Local, b: BaseCoin, a: Address, tx: TxId, verdict: Option<nat>,
                                        markSql: bool, reply: Reply, sql: bool)
    requires Inv(l, b) && a in l.mem.pending
    ensures var l' := CheckTx(l, a, tx, verdict, markSql, reply, sql); Inv(l', b) && Evolves(l.db, l'.db)
  {
    var inv := l.mem.pending[a];
    if verdict.Some? && inv.required <= verdict.value && inv.status == PENDING {
      MarkKeeps(l, b, a, verdict.value, tx, markSql);
      AfterMarkKeeps(l, MarkMempool(l, a, verdict.value, tx, markSql), b, a, reply, sql);
    }
  }

  lemma AfterMarkKeepsExclusive(l: Local, l1: Local, b: BaseCoin, a: Address, reply: Reply, sql: bool)
    requires ExclusiveOk(l.db, b, l.mem) && Inv(l1, b) && ExclusiveOk(l1.db, b, l1.mem) && a in l1.mem.pending
    ensures var l' := AfterMark(l, l1, a, reply, sql); ExclusiveOk(l'.db, b, l'.mem)
  {
    if reply.Rejected? && l1.mem.pending[a].txId.Some? {
      SameClaimsKeepExclusive(l.db, l.db, b, l.mem, Block(l, l1.mem.pending[a].address).mem);
    } else {
      ConfirmKeepsExclusive(l1, b, a, reply, sql);
    }
  }

  lemma JudgedKeepsExclusive(l: Local, b: BaseCoin, a: Address, tx: TxId, amount: nat, markSql: bool, reply: Reply,
                             sql: bool)
    requires Inv(l, b) && ExclusiveOk(l.db, b, l.mem) && a in l.mem.pending
    requires EntryOk(l.db, b, l.mem, a) && l.mem.pending[a].status == PENDING
    ensures var l' := AfterMark(l, MarkMempool(l, a, amount, tx, markSql), a, reply, sql);
            ExclusiveOk(l'.db, b, l'.mem)
  {
    MarkKeeps(l, b, a, amount, tx, markSql);
    MarkKeepsExclusive(l, b, a, amount, tx, markSql);
    AfterMarkKeepsExclusive(l, MarkMempool(l, a, amount, tx, markSql), b, a, reply, sql);
  }

  lemma {:induction false} CheckTxKeepsExclusive(l: Local, b: BaseCoin, a: Address, tx: TxId, verdict: Option<nat>,
                                                 markSql: bool, reply: Reply, sql: bool)
    requires Inv(l, b) && ExclusiveOk(l.db, b, l.mem) && a in l.mem.pending
    ensures var l' := CheckTx(l, a, tx, verdict, markSql, reply, sql); ExclusiveOk(l'.db, b, l'.mem)
  {
    var inv := l.mem.pending[a];
    assert EntryOk(l.db, b, l.mem, a);
    if verdict.Some? && inv.required <= verdict.value && inv.status == PENDING {
      JudgedKeepsExclusive(l, b, a, tx, verdict.value, markSql, reply, sql);
    }
  }

  // ----- Timers -----

  lemma TimerExitKeeps(l: Local, b: BaseCoin, id: InvoiceId)
    requires Inv(l, b) && id in l.mem.timers && l.mem.timers[id].cancelled
    ensures Inv(TimerExit(l, id), b)
  {
    var l' := TimerExit(l, id);
    forall t | t in l'.mem.timers
      ensures TimerOk(l'.db, b, l'.mem, t)
    {
      assert TimerOk(l.db, b, l.mem, t);
    }
    forall a | a in l'.mem.pending
      ensures EntryOk(l'.db, b, l'.mem, a) && Armed(l'.mem, l'.mem.pending[a].id)
    {
      assert EntryOk(l.db, b, l.mem, a);
    }
  }

  /** Consuming a timer leaves an invariant in which only the entry at its address may lack one. */
  lemma FireStarts(l: Local, b: BaseCoin, id: InvoiceId, sql: bool)
    requires Inv(l, b) && id in l.mem.timers
    ensures ExpireOk(TimerExit(l, id), b, id, l.mem.timers[id].address, sql && !l.mem.timers[id].cancelled)
  {
    var t := l.mem.timers[id];
    var l1 := TimerExit(l, id);
    assert TimerOk(l.db, b, l.mem, id);
    forall a | a in l1.mem.pending
      ensures EntryOk(l1.db, b, l1.mem, a) && (a != t.address ==> Armed(l1.mem, l1.mem.pending[a].id))
    {
      assert EntryOk(l.db, b, l.mem, a);
    }
    forall x | x in l1.mem.timers
      ensures TimerOk(l1.db, b, l1.mem, x)
    {
      assert TimerOk(l.db, b, l.mem, x);
    }
  }

  lemma {:induction false} FireKeeps(l: Local, b: BaseCoin, id: InvoiceId, sql: bool)
    requires Inv(l, b) && id in l.mem.timers
    ensures var l' := Fire(l, id, sql); Inv(l', b) && Evolves(l.db, l'.db)
  {
    var t := l.mem.timers[id];
    var l1 := TimerExit(l, id);
    FireStarts(l, b, id, sql);
    ExpireKeepsRows(l1, b, id, t.address, sql && !t.cancelled);
    if t.address in l1.mem.pending {
      ExpireKeepsMem(l1, b, id, t.address, sql && !t.cancelled);
    }
  }

  lemma FireKeepsExclusive(l: Local, b: BaseCoin, id: InvoiceId, sql: bool)
    requires Inv(l, b) && ExclusiveOk(l.db, b, l.mem) && id in l.mem.timers
    ensures var l' := Fire(l, id, sql); ExclusiveOk(l'.db, b, l'.mem)
  {
    var t := l.mem.timers[id];
    var l1 := TimerExit(l, id);
    FireStarts(l, b, id, sql);
    SameClaimsKeepExclusive(l.db, l1.db, b, l.mem, l1.mem);
    if t.address in l.mem.pending && !t.cancelled {
      assert EntryOk(l.db, b, l.mem, t.address);
      assert InUse(l.db, b, t.address);
      assert !Stale(l.db, b, l.mem, id);
    }
    ExpireKeepsExclusive(l1, b, id, t.address, sql && !t.cancelled);
  }

  // ----- Releases -----

  lemma ReleaseKeeps(l: Local, b: BaseCoin, a: Address, sql: bool)
    requires Inv(l, b) && a in l.mem.releases
    ensures var l' := RunRelease(l, a, sql); RowsOk(l'.db) && MemOk(l'.db, b, l'.mem) && Evolves(l.db, l'.db)
  {
    var l' := RunRelease(l, a, sql);
    P.SetOccupiedKeepsPoolOk(l.db.pool, a, false);
    forall x | x in l'.mem.pending
      ensures EntryOk(l'.db, b, l'.mem, x) && Armed(l'.mem, l'.mem.pending[x].id)
    {
      assert EntryOk(l.db, b, l.mem, x);
    }
    forall t | t in l'.mem.timers
      ensures TimerOk(l'.db, b, l'.mem, t)
    {
      assert TimerOk(l.db, b, l.mem, t);
    }
    forall i | 0 <= i < |l'.db.audit|
      ensures WriteOk(l'.db, l'.db.audit[i])
    {
      assert WriteOk(l.db, l.db.audit[i]);
    }
    forall id | id in l'.db.invoices
      ensures RowOk(l'.db, id)
    {
      assert RowOk(l.db, id);
    }
  }

  lemma ReleaseKeepsExclusive(l: Local, b: BaseCoin, a: Address, sql: bool)
    requires ExclusiveOk(l.db, b, l.mem) && a in l.mem.releases
    ensures var l' := RunRelease(l, a, sql); ExclusiveOk(l'.db, b, l'.mem)
  {
    var l' := RunRelease(l, a, sql);
    forall i | PendingIn(l'.db, b, i)
      ensures l'.mem.releases[l'.db.invoices[i].address] == 0 && Secured(l'.db.pool, b, l'.db.invoices[i].address)
    {
      assert PendingIn(l.db, b, i) && l.db.invoices[i].address != a;
    }
    forall x | x in l'.mem.releases
      ensures l'.mem.releases[x] == 1 && Secured(l'.db.pool, b, x)
    {
      assert x in l.mem.releases && x != a;
    }
    forall id | Stale(l'.db, b, l'.mem, id)
      ensures Dead(l'.db.pool, b, l'.mem.timers[id].address) && !InUse(l'.db, b, l'.mem.timers[id].address)
    {
      assert Stale(l.db, b, l.mem, id);
      forall i | PendingIn(l'.db, b, i)
        ensures l'.db.invoices[i].address != l'.mem.timers[id].address
      {
        assert PendingIn(l.db, b, i);
      }
    }
  }

  // ----- Creation -----

  /** No other coin with the same encoding has a key of this one; always so for XMR, BTC and LTC. */
  ghost predicate Apart(p: P.Pool, b: BaseCoin) {
    FormatOf(b) == FEvm ==> P.EvmKeysDisjoint(p)
  }

  /** The key columns only changed their counters. */
  ghost predicate SameKeys(p: P.Pool, p': P.Pool) {
    forall k :: (k in p'.keys <==> k in p.keys) && (k in p.keys ==> p'.keys[k].key == p.keys[k].key)
  }

  /** The allocated address derives from the current key, was not secured and now is; no other address changes. */
  lemma AllocateClaims(p: P.Pool, user: UserId, coin: Coin, b: BaseCoin, pick: Address)
    requires P.PoolOk(p) && Home(coin) == Some(b) && P.PickOk(p, user, coin, pick)
    requires P.Allocate(p, user, coin, b, pick).Some?
    ensures var r := P.Allocate(p, user, coin, b, pick).value;
            && AddressOk(b, r.address) && SameKeys(p, r.pool)
            && (user, b) in p.keys && p.keys[(user, b)].key == r.address.key
            && r.address in r.pool.addresses && r.pool.addresses[r.address] == P.AddressRow(b, true, user)
            && !Secured(p, b, r.address) && Secured(r.pool, b, r.address)
            && (forall a :: a != r.address ==> (a in r.pool.addresses <==> a in p.addresses)
                                               && (a in p.addresses ==> r.pool.addresses[a] == p.addresses[a]))
  {
    if P.HasFree(p, user, coin) {
      assert P.FreeFor(p, user, coin, pick);
      assert P.HasRow(p, user, b, pick);
      assert P.Issued(p, user, b, pick);
    } else {
      Counter.BumpIsSuccessor(p.keys[(user, b)].last);
    }
  }

  /** Every other address keeps its standing. */
  lemma AllocateKeepsOthers(p: P.Pool, user: UserId, coin: Coin, b: BaseCoin, pick: Address, c: BaseCoin, a: Address)
    requires P.PoolOk(p) && Home(coin) == Some(b) && P.PickOk(p, user, coin, pick)
    requires P.Allocate(p, user, coin, b, pick).Some? && a != P.Allocate(p, user, coin, b, pick).value.address
    ensures var r := P.Allocate(p, user, coin, b, pick).value;
            Dead(p, c, a) == Dead(r.pool, c, a) && Secured(p, c, a) == Secured(r.pool, c, a)
  {
    AllocateClaims(p, user, coin, b, pick);
  }

  lemma CreateKeepsRows(l: Local, b: BaseCoin, req: Request, id: InvoiceId, now: int, pick: Address)
    requires RowsOk(l.db) && ActEnabled(l, DoCreate(req, id, now, pick))
    ensures var l' := Create(l, b, req, id, now, pick); RowsOk(l'.db) && Evolves(l.db, l'.db)
  {
    var r := P.Allocate(l.db.pool, req.user, req.coin, b, pick);
    if Home(req.coin) == Some(b) && r.Some? {
      var d' := Create(l, b, req, id, now, pick).db;
      P.AllocateKeepsPoolOk(l.db.pool, req.user, req.coin, b, pick);
      AllocateClaims(l.db.pool, req.user, req.coin, b, pick);
      forall i | 0 <= i < |d'.audit|
        ensures WriteOk(d', d'.audit[i])
      {
        assert WriteOk(l.db, l.db.audit[i]);
      }
      forall k | k in d'.invoices
        ensures RowOk(d', k)
      {
        assert k != id ==> RowOk(l.db, k);
      }
      assert TxUnique(d');
    }
  }

  lemma {:induction false} CreateKeepsMem(l: Local, b: BaseCoin, req: Request, id: InvoiceId, now: int, pick: Address)
    requires MemOk(l.db, b, l.mem) && ActEnabled(l, DoCreate(req, id, now, pick))
    ensures var l' := Create(l, b, req, id, now, pick); MemOk(l'.db, b, l'.mem)
  {
    var r := P.Allocate(l.db.pool, req.user, req.coin, b, pick);
    if Home(req.coin) == Some(b) && r.Some? {
      var l' := Create(l, b, req, id, now, pick);
      forall x | x in l'.mem.pending
        ensures EntryOk(l'.db, b, l'.mem, x) && Armed(l'.mem, l'.mem.pending[x].id)
      {
        assert x in l.mem.pending ==> EntryOk(l.db, b, l.mem, x);
      }
      forall t | t in l'.mem.timers
        ensures TimerOk(l'.db, b, l'.mem, t)
      {
        assert t in l.mem.timers ==> TimerOk(l.db, b, l.mem, t);
      }
    }
  }

  lemma {:induction false} CreateKeepsExclusive(l: Local, b: BaseCoin, req: Request, id: InvoiceId, now: int,
                                                pick: Address)
    requires RowsOk(l.db) && ExclusiveOk(l.db, b, l.mem) && TimersOk(l.db, b, l.mem)
    requires ActEnabled(l, DoCreate(req, id, now, pick))
    ensures var l' := Create(l, b, req, id, now, pick); ExclusiveOk(l'.db, b, l'.mem)
  {
    var p := l.db.pool;
    var r := P.Allocate(p, req.user, req.coin, b, pick);
    if Home(req.coin) == Some(b) && r.Some? {
      AllocateClaims(p, req.user, req.coin, b, pick);
      var l' := Create(l, b, req, id, now, pick);
      var inv := NewInvoice(req, id, r.value.address, now);
      forall a | a != inv.address
        ensures Secured(p, b, a) == Secured(l'.db.pool, b, a)
      {
        AllocateKeepsOthers(p, req.user, req.coin, b, pick, b, a);
      }
      ClaimAppears(l.db, l'.db, b, l.mem, l'.mem, inv);
      StaleStays(l.db, l'.db, b, l.mem, l'.mem, inv);
    }
  }

  /** A new pending row claims an address that nobody claimed. */
  lemma ClaimAppears(d: Db, d': Db, b: BaseCoin, m: Memory, m': Memory, inv: Invoice)
    requires ClaimsOk(d, b, m)
    requires inv.id !in d.invoices && d'.invoices == d.invoices[inv.id := inv]
    requires Home(inv.coin) == Some(b) && IsPending(inv.status)
    requires !Secured(d.pool, b, inv.address) && Secured(d'.pool, b, inv.address)
    requires forall a :: a != inv.address && Secured(d.pool, b, a) ==> Secured(d'.pool, b, a)
    requires m'.releases == m.releases
    ensures ClaimsOk(d', b, m')
  {
    forall i
      ensures PendingIn(d', b, i) <==> PendingIn(d, b, i) || i == inv.id
    {
    }
    forall i | PendingIn(d, b, i)
      ensures d'.invoices[i] == d.invoices[i] && d.invoices[i].address != inv.address
    {
    }
    assert inv.address !in m.releases;
  }

  /** It does not use the address of a stale timer, since those are dead. */
  lemma StaleStays(d: Db, d': Db, b: BaseCoin, m: Memory, m': Memory, inv: Invoice)
    requires StaleOk(d, b, m) && (forall t :: t in m.timers ==> TimerOk(d, b, m, t))
    requires inv.id !in d.invoices && d'.invoices == d.invoices[inv.id := inv]
    requires Home(inv.coin) == Some(b) && IsPending(inv.status)
    requires SameKeys(d.pool, d'.pool)
    requires exists u :: (u, b) in d.pool.keys && d.pool.keys[(u, b)].key == inv.address.key
    requires m' == Register(m, inv)
    ensures StaleOk(d', b, m')
  {
    forall t | Stale(d', b, m', t)
      ensures Dead(d'.pool, b, m'.timers[t].address) && !InUse(d', b, m'.timers[t].address)
    {
      assert t != inv.id && Stale(d, b, m, t);
      var x := m.timers[t].address;
      forall i | PendingIn(d', b, i)
        ensures d'.invoices[i].address != x
      {
        assert i != inv.id ==> PendingIn(d, b, i);
      }
    }
  }

  // ----- All steps of a processor -----

  /** The rejection branch expires the invoice of the entry. */
  predicate Rejects(l: Local, act: Act)
    requires ActEnabled(l, act)
  {
    act.DoCheckBlock? && act.reply.Rejected? && act.sql && l.mem.pending[act.a].txId.Some?
  }

  /** It does so at an address that is still in the pool, as a row of the coin. */
  predicate Harmful(l: Local, b: BaseCoin, act: Act)
    requires ActEnabled(l, act)
  {
    Rejects(l, act) && act.a in l.db.pool.addresses && l.db.pool.addresses[act.a].coin == b
  }

  /** The address of a rejected invoice is dead unless its row is in the pool. */
  lemma HarmlessIsDead(l: Local, b: BaseCoin, act: Act)
    requires Inv(l, b) && ExclusiveOk(l.db, b, l.mem) && ActEnabled(l, act) && Rejects(l, act) && !Harmful(l, b, act)
    ensures Dead(l.db.pool, b, act.a)
  {
    var e := l.mem.pending[act.a];
    assert EntryOk(l.db, b, l.mem, act.a);
    assert PendingIn(l.db, b, e.id) && Secured(l.db.pool, b, l.db.invoices[e.id].address);
  }

  lemma DoKeepsInv(l: Local, b: BaseCoin, act: Act)
    requires Inv(l, b) && ActEnabled(l, act)
    ensures Inv(Do(l, b, act), b) && Evolves(l.db, Do(l, b, act).db)
  {
    match act
    case DoCreate(req, id, now, pick) =>
      CreateKeepsRows(l, b, req, id, now, pick);
      CreateKeepsMem(l, b, req, id, now, pick);
    case DoCheckTx(a, tx, verdict, markSql, reply, sql) => CheckTxKeeps(l, b, a, tx, verdict, markSql, reply, sql);
    case DoCheckBlock(a, reply, sql) => ConfirmKeeps(l, b, a, reply, sql);
    case DoFire(id, sql) => FireKeeps(l, b, id, sql);
    case DoTimerExit(id) => TimerExitKeeps(l, b, id);
    case DoRelease(a, sql) => ReleaseKeeps(l, b, a, sql);
  }

  lemma {:induction false} DoKeepsExclusive(l: Local, b: BaseCoin, act: Act)
    requires Inv(l, b) && ExclusiveOk(l.db, b, l.mem) && ActEnabled(l, act) && !Harmful(l, b, act)
    ensures var l' := Do(l, b, act); ExclusiveOk(l'.db, b, l'.mem)
  {
    match act
    case DoCreate(req, id, now, pick) => CreateKeepsExclusive(l, b, req, id, now, pick);
    case DoCheckTx(a, tx, verdict, markSql, reply, sql) =>
      CheckTxKeepsExclusive(l, b, a, tx, verdict, markSql, reply, sql);
    case DoCheckBlock(a, reply, sql) =>
      if Rejects(l, act) {
        HarmlessIsDead(l, b, act);
      }
      ConfirmKeepsExclusive(l, b, a, reply, sql);
    case DoFire(id, sql) => FireKeepsExclusive(l, b, id, sql);
    case DoTimerExit(id) => SameClaimsKeepExclusive(l.db, l.db, b, l.mem, TimerExit(l, id).mem);
    case DoRelease(a, sql) => ReleaseKeepsExclusive(l, b, a, sql);
  }
}
