/** The invoice lifecycle at the granularity of atomic handlers: what the SQL statements and the handlers of one
    processor do to the database and to the processor's memory. */
module Lifecycle {
  import opened Domain
  import opened Confirmations
  import P = Pool

  // ----- State -----

  /** History: one status written by an UPDATE, with the status the row had before it. */
  datatype StatusWrite = StatusWrite(id: InvoiceId, before: Status, after: Status)

  /** The tables; confs records the confirmations the daemon reported when an invoice was confirmed. */
  datatype Db = Db(invoices: map<InvoiceId, Invoice>, pool: P.Pool, audit: seq<StatusWrite>, confs: map<InvoiceId, nat>)

  /** The goroutine of handleInvoiceHelper for one invoice. */
  datatype Timer = Timer(address: Address, cancelled: bool)

  /** pendingInvoices, the expiry timers by invoice, and the address releases that were spawned but have not run. */
  datatype Memory = Memory(pending: map<Address, Invoice>, timers: map<InvoiceId, Timer>, releases: multiset<Address>)

  datatype Local = Local(db: Db, mem: Memory)

  const NO_MEMORY: Memory := Memory(map[], map[], multiset{})

  // ----- SQL statements on invoices -----

  predicate TxTaken(d: Db, id: InvoiceId, tx: TxId) {
    exists k | k in d.invoices :: k != id && d.invoices[k].txId == Some(tx)
  }

  function Write(d: Db, row: Invoice): Db
    requires row.id in d.invoices
  {
    d.(invoices := d.invoices[row.id := row],
       audit := d.audit + [StatusWrite(row.id, d.invoices[row.id].status, row.status)])
  }

  /** ConfirmInvoiceStatusMempoolById; None if there is no such row or the UNIQUE tx_id is taken. */
  function SetMempool(d: Db, id: InvoiceId, amount: nat, tx: TxId): Option<Db> {
    if id in d.invoices && d.invoices[id].id == id && !TxTaken(d, id, tx) then
      Some(Write(d, d.invoices[id].(status := PENDING_MEMPOOL, actual := Some(amount), txId := Some(tx))))
    else
      None
  }

  /** ConfirmInvoiceById. */
  function SetConfirmed(d: Db, id: InvoiceId, confirmations: nat): Option<Db> {
    if id in d.invoices && d.invoices[id].id == id then
      Some(Write(d, d.invoices[id].(status := CONFIRMED)).(confs := d.confs[id := confirmations]))
    else
      None
  }

  /** ExpireInvoiceById. */
  function SetExpired(d: Db, id: InvoiceId): Option<Db> {
    if id in d.invoices && d.invoices[id].id == id then Some(Write(d, d.invoices[id].(status := EXPIRED))) else None
  }

  const FIVE_MINUTES := 300

  /** ShiftExpiresAtForNonConfirmedInvoices for one row. */
  function ShiftRow(r: Invoice, now: int): Invoice {
    if IsPending(r.status) && r.expiresAt - now < FIVE_MINUTES then r.(expiresAt := now + FIVE_MINUTES) else r
  }

  function Shift(d: Db, now: int): Db {
    d.(invoices := map id | id in d.invoices :: ShiftRow(d.invoices[id], now))
  }

  // ----- Handlers -----

  const MIN_SYNC_TIMEOUT := 10

  datatype Request = Request(user: UserId, coin: Coin, amount: int, timeout: nat, confirmations: nat)

  /** handleInvoice: an address already tracked keeps its entry and gets no second timer. */
  function Register(m: Memory, inv: Invoice): Memory {
    if inv.address in m.pending then m
    else m.(pending := m.pending[inv.address := inv], timers := m.timers[inv.id := Timer(inv.address, false)])
  }

  function NewInvoice(req: Request, id: InvoiceId, a: Address, now: int): Invoice
    requires req.confirmations < TWO32
  {
    var timeout := if req.timeout < MIN_SYNC_TIMEOUT then MIN_SYNC_TIMEOUT else req.timeout;
    Invoice(id, a, req.coin, req.amount, None, Int16(req.confirmations), PENDING, now + timeout, None, req.user)
  }

  /** The invoice says what the request asked for: its coin, amount and number of confirmations, a lifetime of at least
      ten seconds, and nothing received. */
  predicate Requested(req: Request, id: InvoiceId, now: int, inv: Invoice)
    requires req.confirmations < TWO32
  {
    && inv.id == id && inv.user == req.user && inv.coin == req.coin && inv.required == req.amount
    && inv.confirmations == Int16(req.confirmations)
    && inv.expiresAt == now + (if req.timeout < 10 then 10 else req.timeout)
    && inv.status == PENDING && inv.txId.None? && inv.actual.None?
  }

  /** createInvoice followed by handleInvoice; id is the fresh UUID and pick the free row the SELECT returns. */
  function Create(l: Local, b: BaseCoin, req: Request, id: InvoiceId, now: int, pick: Address): Local
    requires req.confirmations < TWO32
  {
    var r := P.Allocate(l.db.pool, req.user, req.coin, b, pick);
    if Home(req.coin) != Some(b) || r.None? then l
    else
      var inv := NewInvoice(req, id, r.value.address, now);
      Local(l.db.(invoices := l.db.invoices[id := inv], pool := r.value.pool), Register(l.mem, inv))
  }

  /** A creation whose INSERT of the invoice fails is rolled back as a whole. */
  function TryCreate(l: Local, b: BaseCoin, req: Request, id: InvoiceId, now: int, pick: Address, sql: bool): Local
    requires req.confirmations < TWO32
  {
    if sql then Create(l, b, req, id, now, pick) else l
  }

  /** expireInvoice; sql says whether its transaction works. */
  function Expire(l: Local, id: InvoiceId, a: Address, sql: bool): Local {
    if a !in l.mem.pending then l
    else
      var m := l.mem.(pending := l.mem.pending - {a});
      var d := if sql then SetExpired(l.db, id) else None;
      if d.None? then l.(mem := m) else Local(d.value, m.(releases := m.releases + multiset{a}))
  }

  /** The answer of GetTransactions for one id: an error, a rejection (no transaction, or a double spend), or its number
      of confirmations. */
  datatype Reply = Unreachable | Rejected | Seen(confirmations: nat)

  function Cancel(timers: map<InvoiceId, Timer>, id: InvoiceId): map<InvoiceId, Timer> {
    if id in timers then timers[id := timers[id].(cancelled := true)] else timers
  }

  /** The end of confirmCONFIRMED: remove the entry, cancel its timer, update the row, spawn the release. */
  function Finish(l: Local, inv: Invoice, confirmations: nat, sql: bool): Local {
    if inv.address !in l.mem.pending then l
    else
      var m := l.mem.(pending := l.mem.pending - {inv.address}, timers := Cancel(l.mem.timers, inv.id));
      var d := if sql then SetConfirmed(l.db, inv.id, confirmations) else None;
      if d.None? then l.(mem := m) else Local(d.value, m.(releases := m.releases + multiset{inv.address}))
  }

  /** confirmCONFIRMED on the entry at a. */
  function Confirm(l: Local, a: Address, reply: Reply, sql: bool): Local
    requires a in l.mem.pending
  {
    var inv := l.mem.pending[a];
    if inv.txId.None? || reply.Unreachable? then l
    else if reply.Rejected? then Expire(l, inv.id, inv.address, sql)
    else if Uint64(inv.confirmations) > reply.confirmations then l
    else Finish(l, inv, reply.confirmations, sql)
  }

  /** confirmPENDING_MEMPOOL on the entry at a: update the row, then the entry's invoice pointer. */
  function MarkMempool(l: Local, a: Address, amount: nat, tx: TxId, sql: bool): Local
    requires a in l.mem.pending
  {
    var id := l.mem.pending[a].id;
    var d := if sql then SetMempool(l.db, id, amount, tx) else None;
    if d.None? then l else Local(d.value, l.mem.(pending := l.mem.pending[a := d.value.invoices[id]]))
  }

  /** expireInvoice inside the transaction that has just updated the row: the entry is removed, and then its own UPDATE
      waits for the row lock of that transaction, which waits for it. Neither is ever committed. */
  function Block(l: Local, a: Address): Local {
    l.(mem := l.mem.(pending := l.mem.pending - {a}))
  }

  /** confirmCONFIRMED after confirmPENDING_MEMPOOL, which led from l to l1: a rejection of the transaction just marked
      blocks. */
  function AfterMark(l: Local, l1: Local, a: Address, reply: Reply, sql: bool): Local
    requires a in l1.mem.pending
  {
    if reply.Rejected? && l1.mem.pending[a].txId.Some? then Block(l, l1.mem.pending[a].address)
    else Confirm(l1, a, reply, sql)
  }

  /** One goroutine of verifyTxOnMempool, on the entry at a; verdict is what verifyTxHandler returns. */
  function CheckTx(l: Local, a: Address, tx: TxId, verdict: Option<nat>, markSql: bool, reply: Reply, sql: bool): Local
    requires a in l.mem.pending
  {
    var inv := l.mem.pending[a];
    if verdict.Some? && inv.required <= verdict.value && inv.status == PENDING then
      AfterMark(l, MarkMempool(l, a, verdict.value, tx, markSql), a, reply, sql)
    else
      l
  }

  /** handleInvoiceHelper taking its expiry branch. A cancelled timer whose deadline has passed may still take it,
      because select picks any ready case; its context is done, so its transaction cannot begin. */
  function Fire(l: Local, id: InvoiceId, sql: bool): Local
    requires id in l.mem.timers
  {
    var t := l.mem.timers[id];
    Expire(l.(mem := l.mem.(timers := l.mem.timers - {id})), id, t.address, sql && !t.cancelled)
  }

  /** handleInvoiceHelper returning because its context is done. */
  function TimerExit(l: Local, id: InvoiceId): Local {
    l.(mem := l.mem.(timers := l.mem.timers - {id}))
  }

  /** One spawned releaseAddressHelper. */
  function RunRelease(l: Local, a: Address, sql: bool): Local {
    Local(if sql then l.db.(pool := P.SetOccupied(l.db.pool, a, false)) else l.db,
          l.mem.(releases := l.mem.releases - multiset{a}))
  }

  /** loadPersistedPendingInvoices as seen by the processor of b, for the rows in the order the query returns them. */
  function Load(b: BaseCoin, rows: seq<Invoice>): Memory {
    if rows == [] then NO_MEMORY
    else
      var n := |rows| - 1;
      var m := Load(b, rows[..n]);
      if Home(rows[n].coin) == Some(b) then Register(m, rows[n]) else m
  }

  // ----- Steps of one processor -----

  datatype Act =
    | DoCreate(req: Request, id: InvoiceId, now: int, pick: Address)
    | DoCheckTx(a: Address, tx: TxId, verdict: Option<nat>, markSql: bool, reply: Reply, sql: bool)
    | DoCheckBlock(a: Address, reply: Reply, sql: bool)
    | DoFire(id: InvoiceId, sql: bool)
    | DoTimerExit(id: InvoiceId)
    | DoRelease(a: Address, sql: bool)

  /** The source's handlers run on an entry still in the map; UUIDs are fresh. */
  predicate ActEnabled(l: Local, act: Act) {
    match act
    case DoCreate(req, id, _, pick) =>
      req.confirmations < TWO32 && id !in l.db.invoices && P.PickOk(l.db.pool, req.user, req.coin, pick)
    case DoCheckTx(a, _, _, _, _, _) => a in l.mem.pending
    case DoCheckBlock(a, _, _) => a in l.mem.pending
    case DoFire(id, _) => id in l.mem.timers
    case DoTimerExit(id) => id in l.mem.timers && l.mem.timers[id].cancelled
    case DoRelease(a, _) => a in l.mem.releases
  }

  function Do(l: Local, b: BaseCoin, act: Act): Local
    requires ActEnabled(l, act)
  {
    match act
    case DoCreate(req, id, now, pick) => Create(l, b, req, id, now, pick)
    case DoCheckTx(a, tx, verdict, markSql, reply, sql) => CheckTx(l, a, tx, verdict, markSql, reply, sql)
    case DoCheckBlock(a, reply, sql) => Confirm(l, a, reply, sql)
    case DoFire(id, sql) => Fire(l, id, sql)
    case DoTimerExit(id) => TimerExit(l, id)
    case DoRelease(a, sql) => RunRelease(l, a, sql)
  }
}
