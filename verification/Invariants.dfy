/** What every step of the lifecycle keeps. */
module Invariants {
  import opened Domain
  import opened Lifecycle
  import P = Pool
  import Counter

  // ----- Rows -----

  predicate Owns(d: Db, b: BaseCoin, id: InvoiceId) {
    id in d.invoices && Home(d.invoices[id].coin) == Some(b)
  }

  predicate PendingIn(d: Db, b: BaseCoin, id: InvoiceId) {
    Owns(d, b, id) && IsPending(d.invoices[id].status)
  }

  predicate StatusOk(r: Invoice) {
    && (r.status == PENDING ==> r.txId.None?)
    && (r.status == PENDING_MEMPOOL || r.status == CONFIRMED ==> r.txId.Some?)
    && (r.txId.Some? <==> r.actual.Some?)
  }

  /** The legal status moves. */
  predicate Follows(before: Status, after: Status) {
    || (before == PENDING && after == PENDING_MEMPOOL)
    || (before == PENDING_MEMPOOL && after == CONFIRMED)
    || (IsPending(before) && after == EXPIRED)
  }

  /** An UPDATE made a legal move or expired an expired row again. */
  predicate WriteOk(d: Db, w: StatusWrite) {
    w.id in d.invoices && (Follows(w.before, w.after) || w.before == w.after == EXPIRED)
  }

  /** An address that the processor of b may have handed out. */
  predicate AddressOk(b: BaseCoin, a: Address) {
    a.format == FormatOf(b) && Counter.InRange(a.at) && Counter.Value(a.at) >= 1
  }

  predicate RowOk(d: Db, id: InvoiceId)
    requires id in d.invoices
  {
    var r := d.invoices[id];
    r.id == id && Home(r.coin).Some? && AddressOk(Home(r.coin).value, r.address) && StatusOk(r)
  }

  ghost predicate TxUnique(d: Db) {
    forall i, j :: i in d.invoices && j in d.invoices && i != j && d.invoices[i].txId.Some?
                   ==> d.invoices[i].txId != d.invoices[j].txId
  }

  ghost predicate RowsOk(d: Db) {
    && (forall id :: id in d.invoices ==> RowOk(d, id))
    && TxUnique(d)
    && (forall i :: 0 <= i < |d.audit| ==> WriteOk(d, d.audit[i]))
    && P.PoolOk(d.pool)
  }

  // ----- Memory -----

  /** The entry is keyed by its own address and equals its row, which is pending. */
  predicate EntryOk(d: Db, b: BaseCoin, m: Memory, a: Address)
    requires a in m.pending
  {
    var e := m.pending[a];
    e.address == a && PendingIn(d, b, e.id) && d.invoices[e.id] == e
  }

  predicate Armed(m: Memory, id: InvoiceId) {
    id in m.timers && !m.timers[id].cancelled
  }

  predicate TimerOk(d: Db, b: BaseCoin, m: Memory, id: InvoiceId)
    requires id in m.timers
  {
    && Owns(d, b, id)
    && d.invoices[id].address == m.timers[id].address
    && (Armed(m, id) ==> d.invoices[id].status != CONFIRMED)
  }

  ghost predicate TimersOk(d: Db, b: BaseCoin, m: Memory) {
    && (forall id :: id in m.timers ==> TimerOk(d, b, m, id))
    && (forall a :: a in m.releases ==> AddressOk(b, a))
  }

  /** Memory agrees with the database, where unarmed names an address whose entry may lack its timer. */
  ghost predicate MemOkBut(d: Db, b: BaseCoin, m: Memory, unarmed: Option<Address>) {
    && (forall a :: a in m.pending ==> EntryOk(d, b, m, a) && (Some(a) != unarmed ==> Armed(m, m.pending[a].id)))
    && TimersOk(d, b, m)
  }

  ghost predicate MemOk(d: Db, b: BaseCoin, m: Memory) {
    MemOkBut(d, b, m, None)
  }

  /** The timers of the processor belong to pending invoices, and no expired row of its coin was expired again. */
  ghost predicate Prompt(d: Db, b: BaseCoin, m: Memory) {
    && (forall id :: Armed(m, id) ==> PendingIn(d, b, id))
    && (forall i :: 0 <= i < |d.audit| && Owns(d, b, d.audit[i].id) ==> Follows(d.audit[i].before, d.audit[i].after))
  }

  // ----- Address exclusivity -----

  ghost predicate InUse(d: Db, b: BaseCoin, a: Address) {
    exists i :: PendingIn(d, b, i) && d.invoices[i].address == a
  }

  /** The address is claimed: a pending invoice uses it or a spawned release still targets it. */
  ghost predicate Claimed(d: Db, b: BaseCoin, m: Memory, a: Address) {
    InUse(d, b, a) || a in m.releases
  }

  /** The coin can never hand out the address again while its keys stay. */
  ghost predicate Dead(p: P.Pool, b: BaseCoin, a: Address) {
    forall u :: (u, b) in p.keys ==> p.keys[(u, b)].key != a.key
  }

  /** The address is an occupied row of the coin, or its row was deleted by a key change and cannot be derived again
      from a current key. */
  ghost predicate Secured(p: P.Pool, b: BaseCoin, a: Address) {
    Dead(p, b, a) || (a in p.addresses && p.addresses[a].coin == b && p.addresses[a].occupied)
  }

  /** What c claims, b cannot hand out; c is a coin with the same encoding. */
  ghost predicate ForeignOk(d: Db, b: BaseCoin, c: BaseCoin, m: Memory) {
    forall a :: Claimed(d, c, m, a) ==> Dead(d.pool, b, a)
  }

  /** An armed timer of an invoice that is not pending any more, left by a rejection. */
  predicate Stale(d: Db, b: BaseCoin, m: Memory, id: InvoiceId) {
    Armed(m, id) && !PendingIn(d, b, id)
  }

  ghost predicate Exclusive(d: Db, b: BaseCoin) {
    forall i, j :: PendingIn(d, b, i) && PendingIn(d, b, j) && i != j ==> d.invoices[i].address != d.invoices[j].address
  }

  ghost predicate ClaimsOk(d: Db, b: BaseCoin, m: Memory) {
    && Exclusive(d, b)
    && (forall i :: PendingIn(d, b, i) ==>
          m.releases[d.invoices[i].address] == 0 && Secured(d.pool, b, d.invoices[i].address))
    && (forall a :: a in m.releases ==> m.releases[a] == 1 && Secured(d.pool, b, a))
  }

  /** Stale timers can do no harm: their addresses are dead and unused. */
  ghost predicate StaleOk(d: Db, b: BaseCoin, m: Memory) {
    forall id :: Stale(d, b, m, id) ==>
      Dead(d.pool, b, m.timers[id].address) && !InUse(d, b, m.timers[id].address)
  }

  ghost predicate ExclusiveOk(d: Db, b: BaseCoin, m: Memory) {
    ClaimsOk(d, b, m) && StaleOk(d, b, m)
  }

  /** The invariant of the processor of b that every step keeps. */
  ghost predicate Inv(l: Local, b: BaseCoin) {
    RowsOk(l.db) && MemOk(l.db, b, l.mem)
  }

  // ----- How rows evolve -----

  /** Terminal rows never change, tx_id and actual_amount are set at most once, deadlines only move away, and the
      identity of the row is fixed. */
  predicate RowKept(r: Invoice, r': Invoice) {
    && r' == r.(status := r'.status, actual := r'.actual, txId := r'.txId, expiresAt := r'.expiresAt)
    && r.expiresAt <= r'.expiresAt
    && (!IsPending(r.status) ==> r' == r)
    && (r.txId.Some? ==> r'.txId == r.txId && r'.actual == r.actual)
    && (r.status == PENDING_MEMPOOL ==> r'.status != PENDING)
  }

  ghost predicate Evolves(d: Db, d': Db) {
    && (forall id :: id in d.invoices ==> id in d'.invoices && RowKept(d.invoices[id], d'.invoices[id]))
    && d.audit <= d'.audit
  }

  lemma EvolvesTransitive(d: Db, d': Db, d'': Db)
    requires Evolves(d, d') && Evolves(d', d'')
    ensures Evolves(d, d'')
  {
    forall id | id in d.invoices
      ensures id in d''.invoices && RowKept(d.invoices[id], d''.invoices[id])
    {
      assert RowKept(d.invoices[id], d'.invoices[id]) && RowKept(d'.invoices[id], d''.invoices[id]);
    }
  }

  /** A status UPDATE that makes a legal move keeps the table well-formed. */
  lemma WriteKeepsRows(d: Db, row: Invoice)
    requires RowsOk(d) && row.id in d.invoices && RowKept(d.invoices[row.id], row) && StatusOk(row)
    requires row.txId.Some? ==> !TxTaken(d, row.id, row.txId.value)
    requires WriteOk(d, StatusWrite(row.id, d.invoices[row.id].status, row.status))
    ensures RowsOk(Write(d, row)) && Evolves(d, Write(d, row))
  {
    var d' := Write(d, row);
    forall i | 0 <= i < |d'.audit|
      ensures WriteOk(d', d'.audit[i])
    {
      assert WriteOk(d, d'.audit[i]);
    }
    assert TxUnique(d');
    forall id | id in d'.invoices
      ensures RowOk(d', id)
    {
      assert RowOk(d, id) && RowOk(d, row.id);
    }
  }

  /** A row's own tx_id is not taken by another row. */
  lemma OwnTxNotTaken(d: Db, id: InvoiceId)
    requires RowsOk(d) && id in d.invoices && d.invoices[id].txId.Some?
    ensures !TxTaken(d, id, d.invoices[id].txId.value)
  {
  }
}
