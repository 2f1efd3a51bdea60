/** The goroutines that one Range starts for all entries, one after the other: what becomes of every invoice. */
module Ranges {
  import opened Domain
  import opened Confirmations
  import opened Lifecycle
  import opened Invariants
  import Steps
  import Outcomes

  /** What the environment decides in one entry's check. */
  datatype TxCheck = TxCheck(verdict: Option<nat>, markSql: bool, reply: Reply, sql: bool)

  datatype BlockCheck = BlockCheck(reply: Reply, sql: bool)

  // ----- The states of a Range -----

  /** The handler's step, or none if its entry is gone. */
  predicate Leads(l: Local, b: BaseCoin, act: Act, l': Local) {
    l' == if ActEnabled(l, act) then Do(l, b, act) else l
  }

  /** The states around the goroutines of verifyTxOnMempool for these entries. */
  ghost predicate TxRange(trace: seq<Local>, order: seq<Address>, b: BaseCoin, tx: TxId, check: Address -> TxCheck) {
    && |trace| == |order| + 1
    && forall i :: 0 <= i < |order| ==>
         var c := check(order[i]);
         Leads(trace[i], b, DoCheckTx(order[i], tx, c.verdict, c.markSql, c.reply, c.sql), trace[i + 1])
  }

  /** The states around the goroutines of verifyTxOnNewBlock. */
  ghost predicate BlockRange(trace: seq<Local>, order: seq<Address>, b: BaseCoin, check: Address -> BlockCheck) {
    && |trace| == |order| + 1
    && forall i :: 0 <= i < |order| ==>
         Leads(trace[i], b, DoCheckBlock(order[i], check(order[i]).reply, check(order[i]).sql), trace[i + 1])
  }

  /** Every key of the map once. */
  ghost predicate Visits(order: seq<Address>, keys: set<Address>) {
    && (forall a :: a in keys <==> a in order)
    && (forall i, j :: 0 <= i < j < |order| ==> order[i] != order[j])
  }

  lemma TxRangeSnoc(trace: seq<Local>, order: seq<Address>, b: BaseCoin, tx: TxId, check: Address -> TxCheck,
                    a: Address, l: Local)
    requires TxRange(trace, order, b, tx, check)
    requires var c := check(a);
             Leads(trace[|order|], b, DoCheckTx(a, tx, c.verdict, c.markSql, c.reply, c.sql), l)
    ensures TxRange(trace + [l], order + [a], b, tx, check)
  {
  }

  lemma BlockRangeSnoc(trace: seq<Local>, order: seq<Address>, b: BaseCoin, check: Address -> BlockCheck, a: Address,
                       l: Local)
    requires BlockRange(trace, order, b, check)
    requires Leads(trace[|order|], b, DoCheckBlock(a, check(a).reply, check(a).sql), l)
    ensures BlockRange(trace + [l], order + [a], b, check)
  {
  }

  // ----- No goroutine is skipped -----

  /** Entries and their rows have the address under which they are tracked. */
  ghost predicate OwnAddresses(l: Local) {
    forall a :: a in l.mem.pending ==>
      && l.mem.pending[a].address == a
      && (l.mem.pending[a].id in l.db.invoices ==> l.db.invoices[l.mem.pending[a].id].address == a)
  }

  /** Every reachable state of a processor is one of these. */
  lemma InvOwnsAddresses(l: Local, b: BaseCoin)
    requires Inv(l, b)
    ensures OwnAddresses(l) && forall id :: id in l.db.invoices ==> l.db.invoices[id].id == id
  {
    forall a | a in l.mem.pending
      ensures l.mem.pending[a].address == a
      ensures l.mem.pending[a].id in l.db.invoices ==> l.db.invoices[l.mem.pending[a].id].address == a
    {
      assert EntryOk(l.db, b, l.mem, a);
    }
    forall id | id in l.db.invoices
      ensures l.db.invoices[id].id == id
    {
      assert RowOk(l.db, id);
    }
  }

  lemma ConfirmKeepsAddresses(l: Local, a: Address, reply: Reply, sql: bool)
    requires OwnAddresses(l) && a in l.mem.pending
    ensures OwnAddresses(Confirm(l, a, reply, sql))
  {
  }

  lemma MarkKeepsAddresses(l: Local, a: Address, amount: nat, tx: TxId, sql: bool)
    requires OwnAddresses(l) && a in l.mem.pending
    ensures OwnAddresses(MarkMempool(l, a, amount, tx, sql))
  {
  }

  lemma CheckTxKeepsAddresses(l: Local, a: Address, tx: TxId, c: TxCheck)
    requires OwnAddresses(l) && a in l.mem.pending
    ensures OwnAddresses(CheckTx(l, a, tx, c.verdict, c.markSql, c.reply, c.sql))
  {
    if c.verdict.Some? && l.mem.pending[a].required <= c.verdict.value && l.mem.pending[a].status == PENDING {
      MarkKeepsAddresses(l, a, c.verdict.value, tx, c.markSql);
      ConfirmKeepsAddresses(MarkMempool(l, a, c.verdict.value, tx, c.markSql), a, c.reply, c.sql);
    }
  }

  /** The entry at x is the same. */
  predicate SameEntry(m: Memory, m': Memory, x: Address) {
    (x in m'.pending <==> x in m.pending) && (x in m.pending ==> m'.pending[x] == m.pending[x])
  }

  /** A goroutine leaves the entries alone that it was not handed. */
  lemma ConfirmLeavesOthers(l: Local, a: Address, reply: Reply, sql: bool, x: Address)
    requires OwnAddresses(l) && a in l.mem.pending && x != a
    ensures SameEntry(l.mem, Confirm(l, a, reply, sql).mem, x)
  {
  }

  lemma CheckLeavesOthers(l: Local, a: Address, tx: TxId, c: TxCheck, x: Address)
    requires OwnAddresses(l) && a in l.mem.pending && x != a
    ensures SameEntry(l.mem, CheckTx(l, a, tx, c.verdict, c.markSql, c.reply, c.sql).mem, x)
  {
    if c.verdict.Some? && l.mem.pending[a].required <= c.verdict.value && l.mem.pending[a].status == PENDING {
      MarkKeepsAddresses(l, a, c.verdict.value, tx, c.markSql);
      ConfirmLeavesOthers(MarkMempool(l, a, c.verdict.value, tx, c.markSql), a, c.reply, c.sql, x);
    }
  }

  /** The act is a check of the entry at a. */
  predicate Checks(act: Act, a: Address) {
    match act
    case DoCheckTx(x, _, _, _, _, _) => x == a
    case DoCheckBlock(x, _, _) => x == a
    case _ => false
  }

  lemma LeavesOthers(l: Local, b: BaseCoin, act: Act, l': Local, a: Address, x: Address)
    requires OwnAddresses(l) && Checks(act, a) && Leads(l, b, act, l') && x != a
    ensures OwnAddresses(l') && SameEntry(l.mem, l'.mem, x)
  {
    if a in l.mem.pending {
      match act
      case DoCheckTx(_, tx, verdict, markSql, reply, sql) =>
        CheckTxKeepsAddresses(l, a, tx, TxCheck(verdict, markSql, reply, sql));
        CheckLeavesOthers(l, a, tx, TxCheck(verdict, markSql, reply, sql), x);
      case DoCheckBlock(_, reply, sql) =>
        ConfirmKeepsAddresses(l, a, reply, sql);
        ConfirmLeavesOthers(l, a, reply, sql, x);
    }
  }

  /** The states around these checks of these entries. */
  ghost predicate CheckRange(trace: seq<Local>, order: seq<Address>, b: BaseCoin, acts: seq<Act>) {
    && |trace| == |order| + 1 && |acts| == |order|
    && forall i :: 0 <= i < |order| ==> Checks(acts[i], order[i]) && Leads(trace[i], b, acts[i], trace[i + 1])
  }

  /** In whatever order the goroutines run: each finds its entry as it was handed out. */
  lemma {:induction false} StaysUntouched(trace: seq<Local>, order: seq<Address>, b: BaseCoin, acts: seq<Act>, i: nat,
                                          j: nat)
    requires CheckRange(trace, order, b, acts) && OwnAddresses(trace[0])
    requires Visits(order, trace[0].mem.pending.Keys) && i <= j < |order|
    ensures OwnAddresses(trace[i]) && SameEntry(trace[0].mem, trace[i].mem, order[j])
    decreases i
  {
    if i > 0 {
      var n := i - 1;
      StaysUntouched(trace, order, b, acts, n, j);
      assert Checks(acts[n], order[n]) && Leads(trace[n], b, acts[n], trace[n + 1]);
      LeavesOthers(trace[n], b, acts[n], trace[i], order[n], order[j]);
    }
  }

  /** So none is skipped. */
  lemma NoneSkipped(trace: seq<Local>, order: seq<Address>, b: BaseCoin, acts: seq<Act>)
    requires CheckRange(trace, order, b, acts) && OwnAddresses(trace[0])
    requires Visits(order, trace[0].mem.pending.Keys)
    ensures forall i :: 0 <= i < |order| ==> order[i] in trace[i].mem.pending
  {
    forall i | 0 <= i < |order|
      ensures order[i] in trace[i].mem.pending
    {
      StaysUntouched(trace, order, b, acts, i, i);
      assert order[i] in trace[0].mem.pending.Keys;
    }
  }

  function TxActs(order: seq<Address>, tx: TxId, check: Address -> TxCheck): seq<Act> {
    seq(|order|, i requires 0 <= i < |order| =>
      var c := check(order[i]);
      DoCheckTx(order[i], tx, c.verdict, c.markSql, c.reply, c.sql))
  }

  function BlockActs(order: seq<Address>, check: Address -> BlockCheck): seq<Act> {
    seq(|order|, i requires 0 <= i < |order| => DoCheckBlock(order[i], check(order[i]).reply, check(order[i]).sql))
  }

  /** The step is possible, and leads from one state to the other. */
  predicate Goes(l: Local, b: BaseCoin, act: Act, l': Local) {
    ActEnabled(l, act) && l' == Do(l, b, act)
  }

  /** Every state is the one that the handler's step on the next entry leads to. */
  ghost predicate AllChecked(trace: seq<Local>, order: seq<Address>, b: BaseCoin, tx: TxId,
                             check: Address -> TxCheck)
  {
    && |trace| == |order| + 1
    && forall i :: 0 <= i < |order| ==>
         var c := check(order[i]);
         Goes(trace[i], b, DoCheckTx(order[i], tx, c.verdict, c.markSql, c.reply, c.sql), trace[i + 1])
  }

  ghost predicate AllConfirmed(trace: seq<Local>, order: seq<Address>, b: BaseCoin, check: Address -> BlockCheck) {
    && |trace| == |order| + 1
    && forall i :: 0 <= i < |order| ==>
         Goes(trace[i], b, DoCheckBlock(order[i], check(order[i]).reply, check(order[i]).sql), trace[i + 1])
  }

  lemma EachChecked(trace: seq<Local>, order: seq<Address>, b: BaseCoin, tx: TxId, check: Address -> TxCheck)
    requires TxRange(trace, order, b, tx, check) && OwnAddresses(trace[0])
    requires Visits(order, trace[0].mem.pending.Keys)
    ensures AllChecked(trace, order, b, tx, check)
  {
    var acts := TxActs(order, tx, check);
    NoneSkipped(trace, order, b, acts);
    forall i | 0 <= i < |order|
      ensures Goes(trace[i], b, acts[i], trace[i + 1])
    {
      assert Leads(trace[i], b, acts[i], trace[i + 1]);
    }
  }

  lemma EachConfirmed(trace: seq<Local>, order: seq<Address>, b: BaseCoin, check: Address -> BlockCheck)
    requires BlockRange(trace, order, b, check) && OwnAddresses(trace[0])
    requires Visits(order, trace[0].mem.pending.Keys)
    ensures AllConfirmed(trace, order, b, check)
  {
    var acts := BlockActs(order, check);
    NoneSkipped(trace, order, b, acts);
    forall i | 0 <= i < |order|
      ensures Goes(trace[i], b, acts[i], trace[i + 1])
    {
      assert Leads(trace[i], b, acts[i], trace[i + 1]);
    }
  }

  lemma CheckedIsRange(trace: seq<Local>, order: seq<Address>, b: BaseCoin, tx: TxId, check: Address -> TxCheck)
    requires AllChecked(trace, order, b, tx, check)
    ensures TxRange(trace, order, b, tx, check)
  {
    var acts := TxActs(order, tx, check);
    forall i | 0 <= i < |order|
      ensures Leads(trace[i], b, acts[i], trace[i + 1])
    {
      assert Goes(trace[i], b, acts[i], trace[i + 1]);
    }
  }

  lemma ConfirmedIsRange(trace: seq<Local>, order: seq<Address>, b: BaseCoin, check: Address -> BlockCheck)
    requires AllConfirmed(trace, order, b, check)
    ensures BlockRange(trace, order, b, check)
  {
    var acts := BlockActs(order, check);
    forall i | 0 <= i < |order|
      ensures Leads(trace[i], b, acts[i], trace[i + 1])
    {
      assert Goes(trace[i], b, acts[i], trace[i + 1]);
    }
  }

  // ----- Rows and entries after the first n checks -----

  /** The rows of the entries handed out so far are these, and no other row changed. */
  ghost predicate RowsAre(l: Local, d': Db, order: seq<Address>, after: seq<Invoice>, n: nat)
    requires n <= |order| == |after| && forall a :: a in order ==> a in l.mem.pending
  {
    && (forall id :: id in d'.invoices <==> id in l.db.invoices)
    && (forall id :: id in l.db.invoices && (forall i :: 0 <= i < n ==> l.mem.pending[order[i]].id != id) ==>
          d'.invoices[id] == l.db.invoices[id])
    && forall i :: 0 <= i < n ==>
         l.mem.pending[order[i]].id in l.db.invoices && d'.invoices[l.mem.pending[order[i]].id] == after[i]
  }

  /** Of the entries handed out so far these are still tracked. */
  ghost predicate EntriesAre(m': Memory, order: seq<Address>, stays: seq<bool>, n: nat)
    requires n <= |order| == |stays|
  {
    forall i :: 0 <= i < n ==> (order[i] in m'.pending <==> stays[i])
  }

  /** Entries of different addresses have different rows, which they equal. */
  ghost predicate RowsApart(l: Local, order: seq<Address>)
    requires forall a :: a in order ==> a in l.mem.pending
  {
    && (forall i, j :: 0 <= i < j < |order| ==> l.mem.pending[order[i]].id != l.mem.pending[order[j]].id)
    && forall a :: a in order ==>
         l.mem.pending[a].id in l.db.invoices && l.db.invoices[l.mem.pending[a].id] == l.mem.pending[a]
  }

  lemma TrackedApart(l: Local, b: BaseCoin, order: seq<Address>)
    requires Inv(l, b) && Visits(order, l.mem.pending.Keys)
    ensures (forall a :: a in order ==> a in l.mem.pending) && RowsApart(l, order)
  {
    forall a | a in order
      ensures a in l.mem.pending && EntryOk(l.db, b, l.mem, a)
    {
      assert a in l.mem.pending.Keys;
    }
    forall i, j | 0 <= i < j < |order|
      ensures l.mem.pending[order[i]].id != l.mem.pending[order[j]].id
    {
      assert EntryOk(l.db, b, l.mem, order[i]) && EntryOk(l.db, b, l.mem, order[j]);
    }
  }

  lemma RowsAreSnoc(l: Local, d: Db, d': Db, order: seq<Address>, after: seq<Invoice>, n: nat)
    requires n < |order| == |after| && (forall a :: a in order ==> a in l.mem.pending) && RowsApart(l, order)
    requires RowsAre(l, d, order, after, n) && d'.invoices == d.invoices[l.mem.pending[order[n]].id := after[n]]
    ensures RowsAre(l, d', order, after, n + 1)
  {
    assert order[n] in order && l.mem.pending[order[n]].id in l.db.invoices;
  }

  lemma EntriesAreSnoc(m: Memory, m': Memory, order: seq<Address>, stays: seq<bool>, n: nat)
    requires n < |order| == |stays| && EntriesAre(m, order, stays, n)
    requires forall i :: 0 <= i < n ==> SameEntry(m, m', order[i])
    requires order[n] in m'.pending <==> stays[n]
    ensures EntriesAre(m', order, stays, n + 1)
  {
    forall i | 0 <= i < n
      ensures order[i] in m'.pending <==> order[i] in m.pending
    {
      assert SameEntry(m, m', order[i]);
    }
  }

  /** The step of position n: its entry is as it was handed out, and the other entries stay. */
  lemma CheckAt(trace: seq<Local>, order: seq<Address>, b: BaseCoin, acts: seq<Act>, n: nat)
    requires CheckRange(trace, order, b, acts) && Visits(order, trace[0].mem.pending.Keys) && n < |order|
    requires Inv(trace[0], b) && Inv(trace[n], b)
    ensures order[n] in trace[n].mem.pending && SameEntry(trace[0].mem, trace[n].mem, order[n])
    ensures ActEnabled(trace[n], acts[n]) && trace[n + 1] == Do(trace[n], b, acts[n])
    ensures Inv(trace[n + 1], b)
    ensures forall i :: 0 <= i < n ==> SameEntry(trace[n].mem, trace[n + 1].mem, order[i])
  {
    InvOwnsAddresses(trace[0], b);
    StaysUntouched(trace, order, b, acts, n, n);
    assert order[n] in trace[0].mem.pending.Keys;
    assert Checks(acts[n], order[n]) && Leads(trace[n], b, acts[n], trace[n + 1]);
    Steps.DoKeepsInv(trace[n], b, acts[n]);
    InvOwnsAddresses(trace[n], b);
    forall i | 0 <= i < n
      ensures SameEntry(trace[n].mem, trace[n + 1].mem, order[i])
    {
      LeavesOthers(trace[n], b, acts[n], trace[n + 1], order[n], order[i]);
    }
  }

  // ----- What a check of a transaction does to every invoice -----

  /** The transaction pays the waiting entry enough, and its UPDATE works unless the tx_id is taken. */
  predicate Paid(l: Local, a: Address, c: TxCheck)
    requires a in l.mem.pending
  {
    && c.verdict.Some? && l.mem.pending[a].required <= c.verdict.value
    && l.mem.pending[a].status == PENDING && c.markSql
  }

  /** No row has the transaction. */
  predicate Unclaimed(d: Db, tx: TxId) {
    forall id | id in d.invoices :: d.invoices[id].txId != Some(tx)
  }

  /** The row of an entry that takes the transaction. */
  function Credited(r: Invoice, tx: TxId, c: TxCheck): Invoice
    requires c.verdict.Some?
  {
    r.(status := if Outcomes.Enough(r, c.reply) && c.sql then CONFIRMED else PENDING_MEMPOOL, actual := c.verdict,
       txId := Some(tx))
  }

  lemma OneCheck(l: Local, b: BaseCoin, a: Address, tx: TxId, c: TxCheck)
    requires Inv(l, b) && a in l.mem.pending
    ensures var e, l' := l.mem.pending[a], CheckTx(l, a, tx, c.verdict, c.markSql, c.reply, c.sql);
            var free := Paid(l, a, c) && Unclaimed(l.db, tx);
            && e.id in l.db.invoices && l.db.invoices[e.id] == e && e.address == a
            && l'.db.invoices == (if free && !c.reply.Rejected? then l.db.invoices[e.id := Credited(e, tx, c)]
                                  else l.db.invoices)
            && (a in l'.mem.pending <==> !(free && (c.reply.Rejected? || Outcomes.Enough(e, c.reply))))
  {
    var e := l.mem.pending[a];
    assert EntryOk(l.db, b, l.mem, a) && RowOk(l.db, e.id);
    if Paid(l, a, c) {
      assert e.txId.None?;
      assert TxTaken(l.db, e.id, tx) <==> !Unclaimed(l.db, tx);
    }
  }

  /** No entry before position n takes the transaction, so the first that is paid for will. */
  predicate StillFree(l: Local, order: seq<Address>, tx: TxId, check: Address -> TxCheck, n: nat)
    requires n <= |order| && forall a :: a in order ==> a in l.mem.pending
  {
    && Unclaimed(l.db, tx)
    && forall j :: 0 <= j < n ==> !(Paid(l, order[j], check(order[j])) && !check(order[j]).reply.Rejected?)
  }

  /** The entry at position i takes the transaction: it is the first one paid for whose reply is no rejection. */
  predicate Takes(l: Local, order: seq<Address>, tx: TxId, check: Address -> TxCheck, i: nat)
    requires i < |order| && forall a :: a in order ==> a in l.mem.pending
  {
    StillFree(l, order, tx, check, i) && Paid(l, order[i], check(order[i])) && !check(order[i]).reply.Rejected?
  }

  /** Its check marks the invoice, is rejected and waits for itself. */
  predicate Hangs(l: Local, order: seq<Address>, tx: TxId, check: Address -> TxCheck, i: nat)
    requires i < |order| && forall a :: a in order ==> a in l.mem.pending
  {
    StillFree(l, order, tx, check, i) && Paid(l, order[i], check(order[i])) && check(order[i]).reply.Rejected?
  }

  /** The row of each entry after the Range. */
  function TxRows(l: Local, order: seq<Address>, tx: TxId, check: Address -> TxCheck): seq<Invoice>
    requires forall a :: a in order ==> a in l.mem.pending
  {
    seq(|order|, i requires 0 <= i < |order| =>
      if Takes(l, order, tx, check, i) then Credited(l.mem.pending[order[i]], tx, check(order[i]))
      else l.mem.pending[order[i]])
  }

  /** Whether it is still tracked then. */
  function TxStays(l: Local, order: seq<Address>, tx: TxId, check: Address -> TxCheck): seq<bool>
    requires forall a :: a in order ==> a in l.mem.pending
  {
    seq(|order|, i requires 0 <= i < |order| =>
      && !Hangs(l, order, tx, check, i)
      && !(Takes(l, order, tx, check, i) && Outcomes.Enough(l.mem.pending[order[i]], check(order[i]).reply)))
  }

  /** The transaction goes to the first entry that is paid for. */
  lemma StillFreeSnoc(l: Local, d: Db, d': Db, order: seq<Address>, tx: TxId, check: Address -> TxCheck, n: nat)
    requires n < |order| && (forall a :: a in order ==> a in l.mem.pending) && RowsApart(l, order)
    requires Unclaimed(d, tx) <==> StillFree(l, order, tx, check, n)
    requires var e := l.mem.pending[order[n]];
             d'.invoices == if Takes(l, order, tx, check, n) then d.invoices[e.id := Credited(e, tx, check(order[n]))]
                            else d.invoices
    ensures Unclaimed(d', tx) <==> StillFree(l, order, tx, check, n + 1)
  {
    var e := l.mem.pending[order[n]];
    if Takes(l, order, tx, check, n) {
      assert d'.invoices[e.id].txId == Some(tx);
    } else {
      assert StillFree(l, order, tx, check, n) <==> StillFree(l, order, tx, check, n + 1);
    }
  }

  /** The check of position n, after those before it. */
  lemma CheckInOrder(l0: Local, l: Local, b: BaseCoin, order: seq<Address>, tx: TxId, check: Address -> TxCheck, n: nat)
    requires n < |order| && (forall a :: a in order ==> a in l0.mem.pending) && RowsApart(l0, order)
    requires Inv(l, b) && order[n] in l.mem.pending && SameEntry(l0.mem, l.mem, order[n])
    requires Unclaimed(l.db, tx) <==> StillFree(l0, order, tx, check, n)
    ensures var c := check(order[n]);
            var l' := CheckTx(l, order[n], tx, c.verdict, c.markSql, c.reply, c.sql);
            && l'.db.invoices == l.db.invoices[l0.mem.pending[order[n]].id := TxRows(l0, order, tx, check)[n]]
            && (order[n] in l'.mem.pending <==> TxStays(l0, order, tx, check)[n])
            && (Unclaimed(l'.db, tx) <==> StillFree(l0, order, tx, check, n + 1))
  {
    var a, c := order[n], check(order[n]);
    var l' := CheckTx(l, a, tx, c.verdict, c.markSql, c.reply, c.sql);
    OneCheck(l, b, a, tx, c);
    assert Takes(l0, order, tx, check, n) <==> Paid(l, a, c) && Unclaimed(l.db, tx) && !c.reply.Rejected?;
    assert Hangs(l0, order, tx, check, n) <==> Paid(l, a, c) && Unclaimed(l.db, tx) && c.reply.Rejected?;
    StillFreeSnoc(l0, l.db, l'.db, order, tx, check, n);
  }

  lemma NextCheck(trace: seq<Local>, order: seq<Address>, b: BaseCoin, tx: TxId, check: Address -> TxCheck, n: nat)
    requires TxRange(trace, order, b, tx, check) && Visits(order, trace[0].mem.pending.Keys) && n < |order|
    requires Inv(trace[0], b) && (forall a :: a in order ==> a in trace[0].mem.pending) && RowsApart(trace[0], order)
    requires Inv(trace[n], b) && (Unclaimed(trace[n].db, tx) <==> StillFree(trace[0], order, tx, check, n))
    ensures var (l0, l, l') := (trace[0], trace[n], trace[n + 1]);
            && Inv(l', b)
            && (forall i :: 0 <= i < n ==> SameEntry(l.mem, l'.mem, order[i]))
            && l'.db.invoices == l.db.invoices[l0.mem.pending[order[n]].id := TxRows(l0, order, tx, check)[n]]
            && (order[n] in l'.mem.pending <==> TxStays(l0, order, tx, check)[n])
            && (Unclaimed(l'.db, tx) <==> StillFree(l0, order, tx, check, n + 1))
  {
    CheckAt(trace, order, b, TxActs(order, tx, check), n);
    CheckInOrder(trace[0], trace[n], b, order, tx, check, n);
  }

  lemma {:induction false} AfterChecks(trace: seq<Local>, order: seq<Address>, b: BaseCoin, tx: TxId,
                                       check: Address -> TxCheck, n: nat)
    requires TxRange(trace, order, b, tx, check) && Visits(order, trace[0].mem.pending.Keys) && n <= |order|
    requires Inv(trace[0], b) && (forall a :: a in order ==> a in trace[0].mem.pending) && RowsApart(trace[0], order)
    ensures Inv(trace[n], b)
    ensures Unclaimed(trace[n].db, tx) <==> StillFree(trace[0], order, tx, check, n)
    ensures RowsAre(trace[0], trace[n].db, order, TxRows(trace[0], order, tx, check), n)
    ensures EntriesAre(trace[n].mem, order, TxStays(trace[0], order, tx, check), n)
    decreases n
  {
    if n > 0 {
      var k := n - 1;
      AfterChecks(trace, order, b, tx, check, k);
      NextCheck(trace, order, b, tx, check, k);
      RowsAreSnoc(trace[0], trace[k].db, trace[n].db, order, TxRows(trace[0], order, tx, check), k);
      EntriesAreSnoc(trace[k].mem, trace[n].mem, order, TxStays(trace[0], order, tx, check), k);
    }
  }

  /** The rows of invoices that no entry tracks are the same, and there is no other row. */
  ghost predicate OnlyTracked(l: Local, l': Local) {
    && (forall id :: id in l'.db.invoices <==> id in l.db.invoices)
    && forall id :: id in l.db.invoices && (forall a :: a in l.mem.pending ==> l.mem.pending[a].id != id) ==>
         l'.db.invoices[id] == l.db.invoices[id]
  }

  /** After verifyTxOnMempool: the first entry in the order that the transaction pays enough, whose UPDATE works and
      whose reply is no rejection, takes the transaction if no invoice has it yet; it is confirmed if the daemon
      reports enough confirmations at once, and otherwise stays tracked. No other row changes. */
  ghost predicate MempoolOutcome(l: Local, l': Local, order: seq<Address>, tx: TxId, check: Address -> TxCheck)
    requires forall a :: a in order ==> a in l.mem.pending
  {
    && OnlyTracked(l, l')
    && forall i :: 0 <= i < |order| ==>
         var (e, c) := (l.mem.pending[order[i]], check(order[i]));
         var takes := Takes(l, order, tx, check, i);
         var enough := c.reply.Seen? && Uint64(e.confirmations) <= c.reply.confirmations;
         && e.id in l'.db.invoices
         && l'.db.invoices[e.id]
            == (if takes then e.(status := if enough && c.sql then CONFIRMED else PENDING_MEMPOOL,
                                 actual := c.verdict, txId := Some(tx))
                else e)
         && (order[i] in l'.mem.pending <==> !(takes && enough) && !Hangs(l, order, tx, check, i))
  }

  lemma ReadsOffChecks(l: Local, l': Local, order: seq<Address>, tx: TxId, check: Address -> TxCheck)
    requires (forall a :: a in order ==> a in l.mem.pending) && Visits(order, l.mem.pending.Keys)
    requires RowsAre(l, l'.db, order, TxRows(l, order, tx, check), |order|)
    requires EntriesAre(l'.mem, order, TxStays(l, order, tx, check), |order|)
    ensures MempoolOutcome(l, l', order, tx, check)
  {
    assert forall i :: 0 <= i < |order| ==> order[i] in l.mem.pending.Keys;
    forall i | 0 <= i < |order|
      ensures l'.db.invoices[l.mem.pending[order[i]].id] == TxRows(l, order, tx, check)[i]
      ensures order[i] in l'.mem.pending <==> TxStays(l, order, tx, check)[i]
    {
    }
  }

  lemma {:induction false} MempoolSettles(trace: seq<Local>, order: seq<Address>, b: BaseCoin, tx: TxId,
                                          check: Address -> TxCheck)
    requires AllChecked(trace, order, b, tx, check) && Visits(order, trace[0].mem.pending.Keys) && Inv(trace[0], b)
    ensures (forall a :: a in order ==> a in trace[0].mem.pending)
    ensures MempoolOutcome(trace[0], trace[|order|], order, tx, check)
  {
    CheckedIsRange(trace, order, b, tx, check);
    TrackedApart(trace[0], b, order);
    AfterChecks(trace, order, b, tx, check, |order|);
    ReadsOffChecks(trace[0], trace[|order|], order, tx, check);
  }

  // ----- What a new block does to every invoice -----

  /** The row of a tracked entry after confirmCONFIRMED. */
  function Asked(e: Invoice, c: BlockCheck): Invoice {
    if e.txId.None? || !c.sql then e
    else if c.reply.Rejected? then e.(status := EXPIRED)
    else if Outcomes.Enough(e, c.reply) then e.(status := CONFIRMED)
    else e
  }

  predicate Leaves(e: Invoice, c: BlockCheck) {
    e.txId.Some? && (c.reply.Rejected? || Outcomes.Enough(e, c.reply))
  }

  function BlockRows(l: Local, order: seq<Address>, check: Address -> BlockCheck): seq<Invoice>
    requires forall a :: a in order ==> a in l.mem.pending
  {
    seq(|order|, i requires 0 <= i < |order| => Asked(l.mem.pending[order[i]], check(order[i])))
  }

  function BlockStays(l: Local, order: seq<Address>, check: Address -> BlockCheck): seq<bool>
    requires forall a :: a in order ==> a in l.mem.pending
  {
    seq(|order|, i requires 0 <= i < |order| => !Leaves(l.mem.pending[order[i]], check(order[i])))
  }

  lemma OneBlock(l: Local, b: BaseCoin, a: Address, c: BlockCheck)
    requires Inv(l, b) && a in l.mem.pending
    ensures var e, l' := l.mem.pending[a], Confirm(l, a, c.reply, c.sql);
            && l'.db.invoices == l.db.invoices[e.id := Asked(e, c)]
            && (a in l'.mem.pending <==> !Leaves(e, c))
  {
    var e := l.mem.pending[a];
    assert EntryOk(l.db, b, l.mem, a) && RowOk(l.db, e.id);
    assert l.db.invoices[e.id := e] == l.db.invoices;
  }

  lemma NextBlock(trace: seq<Local>, order: seq<Address>, b: BaseCoin, check: Address -> BlockCheck, n: nat)
    requires BlockRange(trace, order, b, check) && Visits(order, trace[0].mem.pending.Keys) && n < |order|
    requires Inv(trace[0], b) && (forall a :: a in order ==> a in trace[0].mem.pending) && Inv(trace[n], b)
    ensures var (l0, l, l') := (trace[0], trace[n], trace[n + 1]);
            && Inv(l', b)
            && (forall i :: 0 <= i < n ==> SameEntry(l.mem, l'.mem, order[i]))
            && l'.db.invoices == l.db.invoices[l0.mem.pending[order[n]].id := BlockRows(l0, order, check)[n]]
            && (order[n] in l'.mem.pending <==> BlockStays(l0, order, check)[n])
  {
    CheckAt(trace, order, b, BlockActs(order, check), n);
    OneBlock(trace[n], b, order[n], check(order[n]));
  }

  lemma {:induction false} AfterBlocks(trace: seq<Local>, order: seq<Address>, b: BaseCoin,
                                       check: Address -> BlockCheck, n: nat)
    requires BlockRange(trace, order, b, check) && Visits(order, trace[0].mem.pending.Keys) && n <= |order|
    requires Inv(trace[0], b) && (forall a :: a in order ==> a in trace[0].mem.pending) && RowsApart(trace[0], order)
    ensures Inv(trace[n], b)
    ensures RowsAre(trace[0], trace[n].db, order, BlockRows(trace[0], order, check), n)
    ensures EntriesAre(trace[n].mem, order, BlockStays(trace[0], order, check), n)
    decreases n
  {
    if n > 0 {
      var k := n - 1;
      AfterBlocks(trace, order, b, check, k);
      NextBlock(trace, order, b, check, k);
      RowsAreSnoc(trace[0], trace[k].db, trace[n].db, order, BlockRows(trace[0], order, check), k);
      EntriesAreSnoc(trace[k].mem, trace[n].mem, order, BlockStays(trace[0], order, check), k);
    }
  }

  /** After verifyTxOnNewBlock: a tracked invoice with a transaction is confirmed if the daemon reports enough
      confirmations and expired if it rejects the transaction, provided the UPDATE works; either way it is no longer
      tracked. No other row changes. */
  ghost predicate BlockOutcome(l: Local, l': Local, check: Address -> BlockCheck) {
    && OnlyTracked(l, l')
    && forall a :: a in l.mem.pending ==>
         var (e, c) := (l.mem.pending[a], check(a));
         var enough := c.reply.Seen? && Uint64(e.confirmations) <= c.reply.confirmations;
         && e.id in l'.db.invoices
         && l'.db.invoices[e.id]
            == (if e.txId.Some? && c.sql && enough then e.(status := CONFIRMED)
                else if e.txId.Some? && c.sql && c.reply.Rejected? then e.(status := EXPIRED)
                else e)
         && (a in l'.mem.pending <==> e.txId.None? || !(enough || c.reply.Rejected?))
  }

  lemma ReadsOffBlocks(l: Local, l': Local, order: seq<Address>, check: Address -> BlockCheck)
    requires (forall a :: a in order ==> a in l.mem.pending) && Visits(order, l.mem.pending.Keys)
    requires RowsAre(l, l'.db, order, BlockRows(l, order, check), |order|)
    requires EntriesAre(l'.mem, order, BlockStays(l, order, check), |order|)
    ensures BlockOutcome(l, l', check)
  {
    assert forall i :: 0 <= i < |order| ==> order[i] in l.mem.pending.Keys;
    forall a | a in l.mem.pending
      ensures var e := l.mem.pending[a];
              && e.id in l'.db.invoices && l'.db.invoices[e.id] == Asked(e, check(a))
              && (a in l'.mem.pending <==> !Leaves(e, check(a)))
    {
      assert a in l.mem.pending.Keys;
      var i :| 0 <= i < |order| && order[i] == a;
      assert BlockRows(l, order, check)[i] == Asked(l.mem.pending[a], check(a));
    }
  }

  lemma {:induction false} BlockSettles(trace: seq<Local>, order: seq<Address>, b: BaseCoin,
                                        check: Address -> BlockCheck)
    requires AllConfirmed(trace, order, b, check) && Visits(order, trace[0].mem.pending.Keys) && Inv(trace[0], b)
    ensures BlockOutcome(trace[0], trace[|order|], check)
  {
    ConfirmedIsRange(trace, order, b, check);
    TrackedApart(trace[0], b, order);
    AfterBlocks(trace, order, b, check, |order|);
    ReadsOffBlocks(trace[0], trace[|order|], order, check);
  }
}
