/** The processors under any interleaving: every map operation, pointer operation and SQL statement is a step of its
    own. */
module Interleaving {
  import opened Domain
  import opened Confirmations
  import L = Lifecycle
  import Amounts
  import Sums

  // ----- State -----

  type CellId = nat
  type Token = nat

  /** A key of one processor's pendingInvoices: the coin it serves, and the address. */
  datatype Slot = Slot(home: Option<BaseCoin>, address: Address)

  function SlotOf(inv: Invoice): Slot {
    Slot(Home(inv.coin), inv.address)
  }

  /** A pendingInvoice value: the atomic invoice pointer and the context that cancelTimeoutFunc cancels. */
  datatype Cell = Cell(inv: Invoice, cancelled: bool)

  /** History: the operations on pendingInvoices that changed its keys; Wiped is a crash. */
  datatype MapOp = Stored(a: Slot) | Removed(a: Slot) | Wiped

  /** History: a terminal status UPDATE; the token is the position in the log of the removal it followed. */
  datatype Terminal = Terminal(id: InvoiceId, slot: Slot, status: Status, token: Token)

  /** Where a goroutine is: each constructor names the operation it performs next. */
  datatype Pc =
    | Registering(inv: Invoice)                                     // handleInvoice: pendingInvoices.Load
    | Storing(inv: Invoice)                                         // pendingInvoices.Store, go handleInvoiceHelper
    | Waiting(cell: CellId, id: InvoiceId, slot: Slot)              // handleInvoiceHelper: select
    | Checking(cell: CellId, tx: TxId)                              // verifyTxOnMempool: value.invoice.Load
    | Verifying(cell: CellId, tx: TxId, inv: Invoice)               // verifyTxHandler and the guard
    | Marking(cell: CellId, tx: TxId, amount: nat)                  // ConfirmInvoiceStatusMempoolById
    | Publishing(cell: CellId, row: Invoice)                        // value.invoice.Store
    | Hanging(cell: CellId, row: Invoice)                           // value.invoice.Store in a check that will block
    | Blocking(slot: Slot)                                          // its expireInvoice: LoadAndDelete, and no more
    | Confirming(cell: CellId)                                      // confirmCONFIRMED: value.invoice.Load
    | Asking(cell: CellId, inv: Invoice)                            // GetTransactions
    | Removing(cell: CellId, inv: Invoice)                          // pendingInvoices.LoadAndDelete
    | Cancelling(cell: CellId, inv: Invoice, token: Token)          // cancelTimeoutFunc
    | Finishing(inv: Invoice, token: Token)                         // ConfirmInvoiceById
    | Expiring(id: InvoiceId, slot: Slot, ctx: Option<CellId>)      // expireInvoice: LoadAndDelete
    | Closing(id: InvoiceId, slot: Slot, token: Token, ctx: Option<CellId>) // ExpireInvoiceById
    | Releasing(slot: Slot, token: Token)                           // releaseAddressHelper
    | Done

  /** The database, the memory that goroutines share, and the history. */
  datatype Shared = Shared(
    rows: map<InvoiceId, Invoice>,
    seen: map<TxId, seq<Output>>,
    cells: seq<Cell>,
    tracked: map<Slot, CellId>,
    log: seq<MapOp>,
    terminals: seq<Terminal>,
    released: seq<Token>)

  datatype State = State(shared: Shared, threads: seq<Pc>)

  const INIT: State := State(Shared(map[], map[], [], map[], [], [], []), [])

  // ----- Steps -----

  /** What the environment decides in a goroutine's step: the handler's amount, the daemon's reply, whether SQL works
      (for a timer: whether its deadline branch is taken). */
  datatype Choice = Choice(amount: Option<nat>, reply: L.Reply, ok: bool)

  datatype Step =
    | Run(tid: nat, choice: Choice)
    | Observe(tx: TxId, outs: seq<Output>)
    | Insert(inv: Invoice)                   // createInvoice commits a row
    | RangeTx(a: Slot, tx: TxId)             // Range of verifyTxOnMempool hands out an entry
    | RangeBlock(a: Slot)                    // Range of verifyTxOnNewBlock hands out an entry
    | Crash
    | Shift(now: int)                        // loadPersistedPendingInvoices moves the near deadlines
    | Reload(id: InvoiceId)                  // and reaches a pending row

  predicate TxTaken(h: Shared, id: InvoiceId, tx: TxId) {
    exists k | k in h.rows :: k != id && h.rows[k].txId == Some(tx)
  }

  /** A successful LoadAndDelete. */
  function Remove(h: Shared, a: Slot): Shared {
    h.(tracked := h.tracked - {a}, log := h.log + [Removed(a)])
  }

  /** A successful terminal UPDATE licensed by the token. */
  function Terminate(h: Shared, id: InvoiceId, token: Token, status: Status): Shared
    requires id in h.rows
  {
    h.(rows := h.rows[id := h.rows[id].(status := status)],
       terminals := h.terminals + [Terminal(id, SlotOf(h.rows[id]), status, token)])
  }

  predicate CellsOk(h: Shared, pc: Pc) {
    match pc
    case Waiting(c, _, _) => c < |h.cells|
    case Checking(c, _) => c < |h.cells|
    case Verifying(c, _, _) => c < |h.cells|
    case Marking(c, _, _) => c < |h.cells|
    case Publishing(c, _) => c < |h.cells|
    case Hanging(c, _) => c < |h.cells|
    case Confirming(c) => c < |h.cells|
    case Asking(c, _) => c < |h.cells|
    case Removing(c, _) => c < |h.cells|
    case Cancelling(c, _, _) => c < |h.cells|
    case Expiring(_, _, ctx) => ctx.Some? ==> ctx.value < |h.cells|
    case Closing(_, _, _, ctx) => ctx.Some? ==> ctx.value < |h.cells|
    case _ => true
  }

  /** The UPDATE of Marking succeeds. If the daemon then rejects the transaction in the same check, it is never
      committed. */
  predicate Marks(h: Shared, pc: Pc, choice: Choice)
    requires pc.Marking? && CellsOk(h, pc)
  {
    choice.ok && h.cells[pc.cell].inv.id in h.rows && !TxTaken(h, h.cells[pc.cell].inv.id, pc.tx)
  }

  function MarkedRow(h: Shared, pc: Pc): Invoice
    requires pc.Marking? && CellsOk(h, pc) && h.cells[pc.cell].inv.id in h.rows
  {
    h.rows[h.cells[pc.cell].inv.id].(status := PENDING_MEMPOOL, actual := Some(pc.amount), txId := Some(pc.tx))
  }

  /** The UPDATE of Finishing or Closing succeeds. */
  predicate Terminates(h: Shared, pc: Pc, choice: Choice)
    requires CellsOk(h, pc)
  {
    match pc
    case Finishing(inv, _) => choice.ok && inv.id in h.rows
    case Closing(id, _, _, ctx) => choice.ok && id in h.rows && (ctx.Some? ==> !h.cells[ctx.value].cancelled)
    case _ => false
  }

  /** What a goroutine's next operation does to the shared state. */
  function Effect(h: Shared, pc: Pc, choice: Choice): Shared
    requires CellsOk(h, pc)
  {
    match pc
    case Storing(inv) =>
      h.(cells := h.cells + [Cell(inv, false)],
         tracked := h.tracked[SlotOf(inv) := |h.cells|],
         log := h.log + [Stored(SlotOf(inv))])
    case Marking(c, _, _) =>
      if Marks(h, pc, choice) && !choice.reply.Rejected? then h.(rows := h.rows[h.cells[c].inv.id := MarkedRow(h, pc)])
      else h
    case Hanging(c, row) => h.(cells := h.cells[c := h.cells[c].(inv := row)])
    case Blocking(a) => if a in h.tracked then Remove(h, a) else h
    case Publishing(c, row) => h.(cells := h.cells[c := h.cells[c].(inv := row)])
    case Removing(_, inv) => if SlotOf(inv) in h.tracked then Remove(h, SlotOf(inv)) else h
    case Expiring(_, a, _) => if a in h.tracked then Remove(h, a) else h
    case Cancelling(c, _, _) => h.(cells := h.cells[c := h.cells[c].(cancelled := true)])
    case Finishing(inv, token) => if Terminates(h, pc, choice) then Terminate(h, inv.id, token, CONFIRMED) else h
    case Closing(id, _, token, _) => if Terminates(h, pc, choice) then Terminate(h, id, token, EXPIRED) else h
    case Releasing(_, token) => if choice.ok then h.(released := h.released + [token]) else h
    case _ => h
  }

  /** Where the goroutine is afterwards. */
  function Next(h: Shared, pc: Pc, choice: Choice): Pc
    requires CellsOk(h, pc)
  {
    match pc
    case Registering(inv) => if SlotOf(inv) in h.tracked then Done else Storing(inv)
    case Storing(_) => Done
    case Waiting(c, id, a) => if choice.ok then Expiring(id, a, Some(c)) else if h.cells[c].cancelled then Done else pc
    case Checking(c, tx) => Verifying(c, tx, h.cells[c].inv)
    case Verifying(c, tx, inv) =>
      if choice.amount.Some? && inv.required <= choice.amount.value && inv.status == PENDING
      then Marking(c, tx, choice.amount.value) else Done
    case Marking(c, _, _) =>
      if !Marks(h, pc, choice) then Confirming(c)
      else if choice.reply.Rejected? then Hanging(c, MarkedRow(h, pc)) else Publishing(c, MarkedRow(h, pc))
    case Hanging(_, row) => Blocking(SlotOf(row))
    case Blocking(_) => Done
    case Publishing(c, _) => Confirming(c)
    case Confirming(c) => if h.cells[c].inv.txId.Some? then Asking(c, h.cells[c].inv) else Done
    case Asking(c, inv) =>
      (match choice.reply
       case Unreachable => Done
       case Rejected => Expiring(inv.id, SlotOf(inv), None)
       case Seen(n) => if Uint64(inv.confirmations) > n then Done else Removing(c, inv))
    case Removing(c, inv) => if SlotOf(inv) in h.tracked then Cancelling(c, inv, |h.log|) else Done
    case Cancelling(_, inv, token) => Finishing(inv, token)
    case Finishing(inv, token) => if Terminates(h, pc, choice) then Releasing(SlotOf(inv), token) else Done
    case Expiring(id, a, ctx) => if a in h.tracked then Closing(id, a, |h.log|, ctx) else Done
    case Closing(_, a, token, _) => if Terminates(h, pc, choice) then Releasing(a, token) else Done
    case Releasing(_, _) => Done
    case Done => Done
  }

  /** The goroutines it starts. */
  function Started(h: Shared, pc: Pc): seq<Pc> {
    if pc.Storing? then [Waiting(|h.cells|, pc.inv.id, SlotOf(pc.inv))] else []
  }

  predicate Enabled(s: State, step: Step) {
    var h := s.shared;
    match step
    case Run(tid, _) => tid < |s.threads| && CellsOk(h, s.threads[tid])
    case Observe(tx, _) => tx !in h.seen
    case Insert(inv) => inv.id !in h.rows && inv.status == PENDING && inv.txId.None? && inv.actual.None?
    case RangeTx(a, tx) => a in h.tracked && tx in h.seen
    case RangeBlock(a) => a in h.tracked
    case Crash => true
    case Shift(_) => true
    case Reload(id) => id in h.rows && IsPending(h.rows[id].status)
  }

  function ApplyShared(s: State, step: Step): Shared
    requires Enabled(s, step)
  {
    var h := s.shared;
    match step
    case Run(tid, choice) => Effect(h, s.threads[tid], choice)
    case Observe(tx, outs) => h.(seen := h.seen[tx := outs])
    case Insert(inv) => h.(rows := h.rows[inv.id := inv])
    case Crash => h.(cells := [], tracked := map[], log := h.log + [Wiped])
    case Shift(now) => h.(rows := map id | id in h.rows :: L.ShiftRow(h.rows[id], now))
    case _ => h
  }

  function ApplyThreads(s: State, step: Step): seq<Pc>
    requires Enabled(s, step)
  {
    var h := s.shared;
    match step
    case Run(tid, choice) => s.threads[tid := Next(h, s.threads[tid], choice)] + Started(h, s.threads[tid])
    case Observe(_, _) => s.threads
    case Shift(_) => s.threads
    case Insert(inv) => s.threads + [Registering(inv)]
    case RangeTx(a, tx) => s.threads + [Checking(h.tracked[a], tx)]
    case RangeBlock(a) => s.threads + [Confirming(h.tracked[a])]
    case Crash => []
    case Reload(id) => s.threads + [Registering(h.rows[id])]
  }

  function Apply(s: State, step: Step): State
    requires Enabled(s, step)
  {
    State(ApplyShared(s, step), ApplyThreads(s, step))
  }

  /** The state after a run; None if some step was not possible. */
  function Exec(steps: seq<Step>): Option<State> {
    if steps == [] then Some(INIT)
    else
      var n := |steps| - 1;
      match Exec(steps[..n])
      case None => None
      case Some(s) => if Enabled(s, steps[n]) then Some(Apply(s, steps[n])) else None
  }

  // ----- Well-formedness: rows, cells and goroutines talk about the same invoices -----

  predicate Anchored(h: Shared, id: InvoiceId, a: Slot) {
    id in h.rows && SlotOf(h.rows[id]) == a
  }

  /** The invoice is one of the table, at its address and of its coin. */
  predicate Known(h: Shared, inv: Invoice) {
    Anchored(h, inv.id, SlotOf(inv)) && h.rows[inv.id].coin == inv.coin
  }

  /** The cell exists and holds the invoice with that id and address. */
  predicate InCell(h: Shared, c: CellId, id: InvoiceId, a: Slot) {
    c < |h.cells| && h.cells[c].inv.id == id && SlotOf(h.cells[c].inv) == a
  }

  predicate ThreadOk(h: Shared, pc: Pc) {
    && CellsOk(h, pc)
    && match pc
       case Registering(inv) => Known(h, inv)
       case Storing(inv) => Known(h, inv)
       case Waiting(c, id, a) => InCell(h, c, id, a) && Anchored(h, id, a)
       case Checking(_, tx) => tx in h.seen
       case Verifying(c, tx, inv) => tx in h.seen && InCell(h, c, inv.id, SlotOf(inv)) && Known(h, inv)
       case Marking(_, tx, _) => tx in h.seen
       case Publishing(c, row) => InCell(h, c, row.id, SlotOf(row)) && Known(h, row)
       case Hanging(c, row) => InCell(h, c, row.id, SlotOf(row)) && Known(h, row)
       case Asking(c, inv) => InCell(h, c, inv.id, SlotOf(inv))
       case Removing(c, inv) => InCell(h, c, inv.id, SlotOf(inv))
       case Cancelling(c, inv, _) => Anchored(h, inv.id, SlotOf(inv))
       case Finishing(inv, _) => Anchored(h, inv.id, SlotOf(inv))
       case Expiring(id, a, _) => Anchored(h, id, a)
       case Closing(id, a, _, _) => Anchored(h, id, a)
       case _ => true
  }

  ghost predicate TablesOk(h: Shared) {
    && (forall id :: id in h.rows ==> h.rows[id].id == id)
    && (forall c :: 0 <= c < |h.cells| ==> Known(h, h.cells[c].inv))
    && (forall a :: a in h.tracked ==> h.tracked[a] < |h.cells| && SlotOf(h.cells[h.tracked[a]].inv) == a)
  }

  ghost predicate WellFormed(s: State) {
    TablesOk(s.shared) && forall t :: 0 <= t < |s.threads| ==> ThreadOk(s.shared, s.threads[t])
  }

  /** Everything goroutines rely on only grows. */
  ghost predicate Grows(h: Shared, h': Shared) {
    && (forall id :: id in h.rows ==>
          id in h'.rows && h'.rows[id].address == h.rows[id].address && h'.rows[id].coin == h.rows[id].coin)
    && (forall tx :: tx in h.seen ==> tx in h'.seen && h'.seen[tx] == h.seen[tx])
    && |h.cells| <= |h'.cells|
    && (forall c :: 0 <= c < |h.cells| ==>
          h'.cells[c].inv.id == h.cells[c].inv.id && SlotOf(h'.cells[c].inv) == SlotOf(h.cells[c].inv))
  }

  lemma GrowsKeepsThread(h: Shared, h': Shared, pc: Pc)
    requires Grows(h, h') && ThreadOk(h, pc)
    ensures ThreadOk(h', pc)
  {
  }

  lemma RowGrows(h: Shared, pc: Pc, choice: Choice, id: InvoiceId)
    requires CellsOk(h, pc) && id in h.rows
    ensures var rows := Effect(h, pc, choice).rows;
            id in rows && rows[id].address == h.rows[id].address && rows[id].coin == h.rows[id].coin
  {
  }

  lemma CellGrows(h: Shared, pc: Pc, choice: Choice, c: CellId)
    requires ThreadOk(h, pc) && c < |h.cells|
    ensures var cells := Effect(h, pc, choice).cells;
            c < |cells| && cells[c].inv.id == h.cells[c].inv.id && SlotOf(cells[c].inv) == SlotOf(h.cells[c].inv)
  {
  }

  lemma EffectOnlyGrows(h: Shared, pc: Pc, choice: Choice)
    requires TablesOk(h) && ThreadOk(h, pc)
    ensures Grows(h, Effect(h, pc, choice))
  {
    var h' := Effect(h, pc, choice);
    assert h'.seen == h.seen && |h.cells| <= |h'.cells|;
    forall id | id in h.rows
      ensures id in h'.rows && h'.rows[id].address == h.rows[id].address && h'.rows[id].coin == h.rows[id].coin
    {
      RowGrows(h, pc, choice, id);
    }
    forall c | 0 <= c < |h.cells|
      ensures h'.cells[c].inv.id == h.cells[c].inv.id && SlotOf(h'.cells[c].inv) == SlotOf(h.cells[c].inv)
    {
      CellGrows(h, pc, choice, c);
    }
  }

  lemma CellStaysKnown(h: Shared, pc: Pc, choice: Choice, c: CellId)
    requires ThreadOk(h, pc) && c < |Effect(h, pc, choice).cells| && (c < |h.cells| ==> Known(h, h.cells[c].inv))
    ensures Known(Effect(h, pc, choice), Effect(h, pc, choice).cells[c].inv)
  {
    assert Known(h, Effect(h, pc, choice).cells[c].inv);
    RowGrows(h, pc, choice, Effect(h, pc, choice).cells[c].inv.id);
  }

  lemma EntryStaysTracked(h: Shared, pc: Pc, choice: Choice, a: Slot)
    requires ThreadOk(h, pc) && a in Effect(h, pc, choice).tracked
    requires a in h.tracked ==> h.tracked[a] < |h.cells| && SlotOf(h.cells[h.tracked[a]].inv) == a
    ensures var h' := Effect(h, pc, choice); h'.tracked[a] < |h'.cells| && SlotOf(h'.cells[h'.tracked[a]].inv) == a
  {
    if a in h.tracked {
      CellGrows(h, pc, choice, h.tracked[a]);
    }
  }

  lemma RowKeepsId(h: Shared, pc: Pc, choice: Choice, id: InvoiceId)
    requires CellsOk(h, pc) && id in Effect(h, pc, choice).rows && (id in h.rows ==> h.rows[id].id == id)
    ensures Effect(h, pc, choice).rows[id].id == id
  {
  }

  lemma EffectKeepsTables(h: Shared, pc: Pc, choice: Choice)
    requires TablesOk(h) && ThreadOk(h, pc) && Grows(h, Effect(h, pc, choice))
    ensures TablesOk(Effect(h, pc, choice))
  {
    var h' := Effect(h, pc, choice);
    forall id | id in h'.rows
      ensures h'.rows[id].id == id
    {
      RowKeepsId(h, pc, choice, id);
    }
    forall c | 0 <= c < |h'.cells|
      ensures Known(h', h'.cells[c].inv)
    {
      CellStaysKnown(h, pc, choice, c);
    }
    forall a | a in h'.tracked
      ensures h'.tracked[a] < |h'.cells| && SlotOf(h'.cells[h'.tracked[a]].inv) == a
    {
      EntryStaysTracked(h, pc, choice, a);
    }
  }

  lemma EffectGrows(h: Shared, pc: Pc, choice: Choice)
    requires TablesOk(h) && ThreadOk(h, pc)
    ensures Grows(h, Effect(h, pc, choice)) && TablesOk(Effect(h, pc, choice))
  {
    EffectOnlyGrows(h, pc, choice);
    EffectKeepsTables(h, pc, choice);
  }

  lemma NextOk(h: Shared, pc: Pc, choice: Choice)
    requires TablesOk(h) && ThreadOk(h, pc)
    ensures ThreadOk(Effect(h, pc, choice), Next(h, pc, choice))
    ensures forall t :: 0 <= t < |Started(h, pc)| ==> ThreadOk(Effect(h, pc, choice), Started(h, pc)[t])
  {
  }

  lemma {:induction false} ApplyKeepsWellFormed(s: State, step: Step)
    requires WellFormed(s) && Enabled(s, step)
    ensures WellFormed(Apply(s, step)) && (!step.Crash? ==> Grows(s.shared, Apply(s, step).shared))
  {
    var s' := Apply(s, step);
    if step.Run? {
      EffectGrows(s.shared, s.threads[step.tid], step.choice);
      NextOk(s.shared, s.threads[step.tid], step.choice);
    }
    if !step.Crash? {
      forall t | 0 <= t < |s'.threads|
        ensures ThreadOk(s'.shared, s'.threads[t])
      {
        if t < |s.threads| && (step.Run? ==> t != step.tid) {
          GrowsKeepsThread(s.shared, s'.shared, s.threads[t]);
        }
      }
    }
  }

  // ----- Conservation -----

  /** The invoice is checked by the BTC or the LTC processor. */
  predicate UtxoCoin(c: Coin) {
    Home(c).Some? && Utxo(Home(c).value)
  }

  /** What the handler of the invoice's processor computes. */
  function Verdict(inv: Invoice, outs: seq<Output>): nat
    requires UtxoCoin(inv.coin)
  {
    Amounts.PaidTo(Home(inv.coin).value, outs, inv.address)
  }

  /** For BTC and LTC invoices the amounts come from the handler. */
  predicate Exact(s: State, step: Step) {
    step.Run? && step.tid < |s.threads| ==> ExactChoice(s.shared, s.threads[step.tid], step.choice)
  }

  predicate ExactChoice(h: Shared, pc: Pc, choice: Choice) {
    pc.Verifying? && UtxoCoin(pc.inv.coin) ==>
      pc.tx in h.seen && choice.amount == Some(Verdict(pc.inv, h.seen[pc.tx]))
  }

  ghost predicate ExactRun(steps: seq<Step>) {
    forall j :: 0 <= j < |steps| && Exec(steps[..j]).Some? ==> Exact(Exec(steps[..j]).value, steps[j])
  }

  /** The row's tx_id and actual_amount are set together, to an observed transaction and, for BTC and LTC, what it pays
      the address. */
  predicate Credited(h: Shared, id: InvoiceId)
    requires id in h.rows
  {
    var r := h.rows[id];
    && (r.txId.Some? <==> r.actual.Some?)
    && (r.txId.Some? ==> r.txId.value in h.seen)
    && (r.txId.Some? && UtxoCoin(r.coin) ==> r.actual.value == Verdict(r, h.seen[r.txId.value]))
  }

  ghost predicate TxUnique(h: Shared) {
    forall i, j :: i in h.rows && j in h.rows && i != j && h.rows[i].txId.Some? ==> h.rows[i].txId != h.rows[j].txId
  }

  predicate MarkOk(h: Shared, pc: Pc)
    requires CellsOk(h, pc)
  {
    pc.Marking? ==>
      && pc.tx in h.seen
      && (UtxoCoin(h.cells[pc.cell].inv.coin) ==> pc.amount == Verdict(h.cells[pc.cell].inv, h.seen[pc.tx]))
  }

  ghost predicate RowsCredited(h: Shared) {
    TxUnique(h) && forall id :: id in h.rows ==> Credited(h, id)
  }

  ghost predicate Conserving(s: State) {
    && WellFormed(s)
    && RowsCredited(s.shared)
    && forall t :: 0 <= t < |s.threads| ==> MarkOk(s.shared, s.threads[t])
  }

  /** Replacing a row by one that is credited, and whose tx_id no other row has, keeps all rows credited. */
  lemma RowUpdateKeepsCredits(h: Shared, h': Shared, id: InvoiceId)
    requires RowsCredited(h) && id in h.rows && id in h'.rows
    requires h'.seen == h.seen && h'.rows == h.rows[id := h'.rows[id]] && Credited(h', id)
    requires h'.rows[id].txId.Some? ==> !TxTaken(h, id, h'.rows[id].txId.value)
    ensures RowsCredited(h')
  {
    forall i | i in h'.rows
      ensures Credited(h', i)
    {
      assert i != id ==> Credited(h, i);
    }
  }

  lemma {:induction false} EffectKeepsCredits(h: Shared, pc: Pc, choice: Choice)
    requires TablesOk(h) && ThreadOk(h, pc) && MarkOk(h, pc) && RowsCredited(h)
    ensures RowsCredited(Effect(h, pc, choice))
  {
    var h' := Effect(h, pc, choice);
    if pc.Marking? && Marks(h, pc, choice) && !choice.reply.Rejected? {
      RowUpdateKeepsCredits(h, h', h.cells[pc.cell].inv.id);
    } else if Terminates(h, pc, choice) {
      var id := if pc.Finishing? then pc.inv.id else pc.id;
      assert Credited(h, id);
      RowUpdateKeepsCredits(h, h', id);
    } else {
      assert h'.rows == h.rows && h'.seen == h.seen;
      forall i | i in h'.rows
        ensures Credited(h', i)
      {
        assert Credited(h, i);
      }
    }
  }

  lemma NextMarkOk(h: Shared, pc: Pc, choice: Choice)
    requires TablesOk(h) && ThreadOk(h, pc) && ExactChoice(h, pc, choice)
    ensures CellsOk(Effect(h, pc, choice), Next(h, pc, choice)) && MarkOk(Effect(h, pc, choice), Next(h, pc, choice))
  {
    NextOk(h, pc, choice);
    if pc.Verifying? {
      assert Known(h, h.cells[pc.cell].inv);
    }
  }

  lemma GrowsKeepsMark(h: Shared, h': Shared, pc: Pc)
    requires TablesOk(h) && TablesOk(h') && Grows(h, h') && ThreadOk(h, pc) && MarkOk(h, pc)
    ensures CellsOk(h', pc) && MarkOk(h', pc)
  {
    if pc.Marking? {
      assert Known(h, h.cells[pc.cell].inv) && Known(h', h'.cells[pc.cell].inv);
    }
  }

  lemma {:induction false} ApplyKeepsConserving(s: State, step: Step)
    requires Conserving(s) && Enabled(s, step) && Exact(s, step)
    ensures Conserving(Apply(s, step))
  {
    var s' := Apply(s, step);
    ApplyKeepsWellFormed(s, step);
    if step.Run? {
      EffectKeepsCredits(s.shared, s.threads[step.tid], step.choice);
      NextMarkOk(s.shared, s.threads[step.tid], step.choice);
    } else {
      forall id | id in s'.shared.rows
        ensures Credited(s'.shared, id)
      {
        assert id in s.shared.rows ==> Credited(s.shared, id);
      }
    }
    forall t | 0 <= t < |s'.threads|
      ensures MarkOk(s'.shared, s'.threads[t])
    {
      if t < |s.threads| && (step.Run? ==> t != step.tid) && !step.Crash? {
        GrowsKeepsMark(s.shared, s'.shared, s.threads[t]);
      }
    }
  }

  lemma ExactPrefix(steps: seq<Step>)
    requires ExactRun(steps) && steps != []
    ensures ExactRun(steps[..|steps| - 1])
  {
    var init := steps[..|steps| - 1];
    forall j | 0 <= j < |init| && Exec(init[..j]).Some?
      ensures Exact(Exec(init[..j]).value, init[j])
    {
      assert init[..j] == steps[..j];
    }
  }

  lemma {:induction false} RunConserves(steps: seq<Step>)
    requires Exec(steps).Some? && ExactRun(steps)
    ensures Conserving(Exec(steps).value)
    decreases |steps|
  {
    if steps != [] {
      var n := |steps| - 1;
      ExactPrefix(steps);
      RunConserves(steps[..n]);
      ApplyKeepsConserving(Exec(steps[..n]).value, steps[n]);
    }
  }

  /** The actual amounts of the BTC and LTC invoices. */
  ghost function Credits(rows: map<InvoiceId, Invoice>): map<InvoiceId, nat> {
    map id | id in rows && UtxoCoin(rows[id].coin) && rows[id].actual.Some? :: rows[id].actual.value
  }

  ghost function Totals(seen: map<TxId, seq<Output>>): map<TxId, nat> {
    map tx | tx in seen :: Amounts.Total(seen[tx])
  }

  lemma CreditsAtMostTotals(h: Shared)
    requires RowsCredited(h)
    ensures Sums.SumMap(Credits(h.rows)) <= Sums.SumMap(Totals(h.seen))
  {
    var f := map id | id in Credits(h.rows) && h.rows[id].txId.Some? :: h.rows[id].txId.value;
    forall id | id in Credits(h.rows)
      ensures id in f && f[id] in Totals(h.seen) && Credits(h.rows)[id] <= Totals(h.seen)[f[id]]
    {
      assert Credited(h, id);
      Amounts.PaidAtMostTotal(Home(h.rows[id].coin).value, h.seen[f[id]], h.rows[id].address);
    }
    Sums.SumMapInjection(Credits(h.rows), f, Totals(h.seen));
  }

  /** Conservation under any interleaving: the actual amounts of all BTC and LTC invoices together sum to at most the
      outputs of the distinct transactions observed, and no transaction is credited to two invoices of whatever
      coins. */
  lemma {:induction false} Conservation(steps: seq<Step>)
    requires Exec(steps).Some? && ExactRun(steps)
    ensures var h := Exec(steps).value.shared;
            && Sums.SumMap(Credits(h.rows)) <= Sums.SumMap(Totals(h.seen))
            && TxUnique(h)
            && forall id :: id in h.rows ==> Credited(h, id)
  {
    RunConserves(steps);
    CreditsAtMostTotals(Exec(steps).value.shared);
  }
}
