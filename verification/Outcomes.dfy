/** Exactly when a step marks, confirms or expires an invoice. */
module Outcomes {
  import opened Domain
  import opened Confirmations
  import opened Lifecycle
  import opened Invariants

  /** The entry handed to the step is this invoice's. */
  predicate Targets(l: Local, a: Address, id: InvoiceId) {
    a in l.mem.pending && l.mem.pending[a].id == id
  }

  predicate Enough(r: Invoice, reply: Reply) {
    reply.Seen? && Uint64(r.confirmations) <= reply.confirmations
  }

  /** A transaction pays the waiting invoice enough, is credited to no other one, and the UPDATE works. */
  predicate PaidBy(l: Local, act: Act, id: InvoiceId)
    requires id in l.db.invoices
  {
    && act.DoCheckTx? && Targets(l, act.a, id)
    && l.db.invoices[id].status == PENDING
    && act.verdict.Some? && l.db.invoices[id].required <= act.verdict.value
    && act.markSql && !TxTaken(l.db, id, act.tx)
  }

  /** A check whose transaction the daemon rejects in the same check waits for itself and writes nothing. */
  predicate MarkedBy(l: Local, act: Act, id: InvoiceId)
    requires id in l.db.invoices
  {
    PaidBy(l, act, id) && !act.reply.Rejected?
  }

  /** The invoice has its transaction, from before or from this step, and the daemon is asked about it. */
  predicate AskedBy(l: Local, act: Act, id: InvoiceId)
    requires id in l.db.invoices
  {
    MarkedBy(l, act, id) || (act.DoCheckBlock? && Targets(l, act.a, id) && l.db.invoices[id].txId.Some?)
  }

  predicate ConfirmedBy(l: Local, act: Act, id: InvoiceId)
    requires id in l.db.invoices
  {
    AskedBy(l, act, id) && Enough(l.db.invoices[id], act.reply) && act.sql
  }

  /** The daemon rejects the transaction an invoice had already, or the armed timer fires while the address is
      tracked. */
  predicate ExpiredBy(l: Local, act: Act, id: InvoiceId)
    requires id in l.db.invoices
  {
    || (act.DoCheckBlock? && AskedBy(l, act, id) && act.reply.Rejected? && act.sql)
    || (act.DoFire? && act.id == id && Armed(l.mem, id) && l.db.invoices[id].address in l.mem.pending && act.sql)
  }

  function Outcome(l: Local, act: Act, id: InvoiceId): Status
    requires id in l.db.invoices
  {
    if ConfirmedBy(l, act, id) then CONFIRMED
    else if ExpiredBy(l, act, id) then EXPIRED
    else if MarkedBy(l, act, id) then PENDING_MEMPOOL
    else l.db.invoices[id].status
  }

  /** The row after the step: the status is the outcome, and the transaction is set exactly if the step marked it. */
  predicate Comes(l: Local, act: Act, id: InvoiceId, d': Db)
    requires id in l.db.invoices
  {
    && id in d'.invoices
    && d'.invoices[id].status == Outcome(l, act, id)
    && (if MarkedBy(l, act, id) then d'.invoices[id].txId == Some(act.tx) && d'.invoices[id].actual == act.verdict
        else d'.invoices[id].txId == l.db.invoices[id].txId && d'.invoices[id].actual == l.db.invoices[id].actual)
  }

  /** What confirmCONFIRMED on the entry at a does to the row. */
  lemma ConfirmRow(l: Local, b: BaseCoin, a: Address, reply: Reply, sql: bool, id: InvoiceId)
    requires a in l.mem.pending && EntryOk(l.db, b, l.mem, a) && RowOk(l.db, l.mem.pending[a].id) && id in l.db.invoices
    ensures var d' := Confirm(l, a, reply, sql).db;
            var r := l.db.invoices[id];
            var asked := l.mem.pending[a].id == id && r.txId.Some? && sql;
            && id in d'.invoices
            && d'.invoices[id] == r.(status :=
                 if asked && Enough(r, reply) then CONFIRMED
                 else if asked && reply.Rejected? then EXPIRED
                 else r.status)
  {
  }

  lemma BlockOutcome(l: Local, b: BaseCoin, act: Act, id: InvoiceId)
    requires Inv(l, b) && PendingIn(l.db, b, id) && act.DoCheckBlock? && ActEnabled(l, act)
    ensures Comes(l, act, id, Do(l, b, act).db)
  {
    assert EntryOk(l.db, b, l.mem, act.a) && RowOk(l.db, l.mem.pending[act.a].id);
    ConfirmRow(l, b, act.a, act.reply, act.sql, id);
  }

  /** The guard of verifyTxOnMempool. */
  predicate Judged(l: Local, act: Act)
    requires act.DoCheckTx? && act.a in l.mem.pending
  {
    act.verdict.Some? && l.mem.pending[act.a].required <= act.verdict.value && l.mem.pending[act.a].status == PENDING
  }

  /** What the first half of a transaction check does to the row. */
  lemma MarkRow(l: Local, b: BaseCoin, act: Act, id: InvoiceId)
    requires Inv(l, b) && PendingIn(l.db, b, id) && act.DoCheckTx? && ActEnabled(l, act)
    requires Judged(l, act)
    ensures var l1 := MarkMempool(l, act.a, act.verdict.value, act.tx, act.markSql);
            && act.a in l1.mem.pending && l1.mem.pending[act.a].id == l.mem.pending[act.a].id
            && EntryOk(l1.db, b, l1.mem, act.a) && RowOk(l1.db, l.mem.pending[act.a].id)
            && id in l1.db.invoices
            && l1.db.invoices[id]
            == if PaidBy(l, act, id)
               then l.db.invoices[id].(status := PENDING_MEMPOOL, actual := act.verdict, txId := Some(act.tx))
               else l.db.invoices[id]
  {
    var inv := l.mem.pending[act.a];
    assert EntryOk(l.db, b, l.mem, act.a) && RowOk(l.db, inv.id);
  }

  lemma SkippedTx(l: Local, b: BaseCoin, act: Act, id: InvoiceId)
    requires Inv(l, b) && PendingIn(l.db, b, id) && act.DoCheckTx? && ActEnabled(l, act) && !Judged(l, act)
    ensures Comes(l, act, id, l.db)
  {
    assert EntryOk(l.db, b, l.mem, act.a);
  }

  /** Whether the check marks the invoice and is then blocked. */
  predicate Blocked(l: Local, act: Act)
    requires act.DoCheckTx? && act.a in l.mem.pending
  {
    && Judged(l, act) && act.reply.Rejected?
    && MarkMempool(l, act.a, act.verdict.value, act.tx, act.markSql).mem.pending[act.a].txId.Some?
  }

  lemma JudgedTx(l: Local, b: BaseCoin, act: Act, id: InvoiceId)
    requires Inv(l, b) && PendingIn(l.db, b, id) && act.DoCheckTx? && ActEnabled(l, act)
    requires Judged(l, act) && !Blocked(l, act)
    ensures var l1 := MarkMempool(l, act.a, act.verdict.value, act.tx, act.markSql);
            act.a in l1.mem.pending && Comes(l, act, id, Confirm(l1, act.a, act.reply, act.sql).db)
  {
    var l1 := MarkMempool(l, act.a, act.verdict.value, act.tx, act.markSql);
    MarkRow(l, b, act, id);
    ConfirmRow(l1, b, act.a, act.reply, act.sql, id);
    assert EntryOk(l.db, b, l.mem, act.a) && RowOk(l.db, id);
    assert Targets(l, act.a, id) ==> l.db.invoices[id].txId.None?;
  }

  lemma TxOutcome(l: Local, b: BaseCoin, act: Act, id: InvoiceId)
    requires Inv(l, b) && PendingIn(l.db, b, id) && act.DoCheckTx? && ActEnabled(l, act)
    ensures Comes(l, act, id, Do(l, b, act).db)
  {
    if Blocked(l, act) {
      assert Do(l, b, act).db == l.db;
    } else if Judged(l, act) {
      JudgedTx(l, b, act, id);
    } else {
      SkippedTx(l, b, act, id);
    }
  }

  lemma FireOutcome(l: Local, b: BaseCoin, act: Act, id: InvoiceId)
    requires Inv(l, b) && PendingIn(l.db, b, id) && act.DoFire? && ActEnabled(l, act)
    ensures Comes(l, act, id, Do(l, b, act).db)
  {
    assert TimerOk(l.db, b, l.mem, act.id) && RowOk(l.db, act.id);
  }

  /** For every step of a processor: a pending invoice is marked, confirmed or expired exactly in these cases. */
  lemma {:induction false} StepOutcome(l: Local, b: BaseCoin, act: Act, id: InvoiceId)
    requires Inv(l, b) && PendingIn(l.db, b, id) && ActEnabled(l, act)
    ensures Comes(l, act, id, Do(l, b, act).db)
  {
    match act
    case DoCreate(_, _, _, _) =>
    case DoCheckTx(_, _, _, _, _, _) => TxOutcome(l, b, act, id);
    case DoCheckBlock(_, _, _) => BlockOutcome(l, b, act, id);
    case DoFire(_, _) => FireOutcome(l, b, act, id);
    case DoTimerExit(_) =>
    case DoRelease(_, _) =>
  }
}
