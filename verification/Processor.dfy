/** The processor object: fields that the goroutines update in place, each method tied to its specification. */
module Processor {
  import opened Domain
  import opened Confirmations
  import opened Lifecycle
  import opened SyncMap
  import opened Database
  import opened Ranges
  import BtcDaemon
  import Counter
  import Invariants
  import P = Pool

  /** What the daemon client of BTC and LTC answers about one transaction; it never rejects one. */
  method AskUtxoDaemon(tx: TxId, parse: TxId -> Option<nat>, answer: nat -> Option<BtcDaemon.BtcTx>)
    returns (reply: Reply)
    ensures !reply.Rejected?
    ensures reply.Seen? <==> parse(tx).Some? && answer(parse(tx).value).Some?
    ensures reply.Seen? ==> reply.confirmations == answer(parse(tx).value).value.confirmations
  {
    var txs := BtcDaemon.GetTransactions([tx], parse, answer);
    if txs.None? {
      assert parse([tx][0]).Some? ==> answer(parse([tx][0]).value).None?;
      return Unreachable;
    }
    assert Some(txs.value[0]) == answer(parse([tx][0]).value);
    if |txs.value| < 1 || BtcDaemon.IsDoubleSpendSeen(txs.value[0]) {
      return Rejected;
    }
    return Seen(txs.value[0].confirmations);
  }

  lemma SomePick(p: P.Pool, user: UserId, coin: Coin) returns (pick: Address)
    ensures P.PickOk(p, user, coin, pick)
  {
    if P.HasFree(p, user, coin) {
      pick :| P.FreeFor(p, user, coin, pick);
    } else {
      pick := Derived(FBtc, Hd(0), Indices(0, 0));
    }
  }

  class BaseCryptoProcessor {
    const coin: BaseCoin
    const db: Queries
    const pendingInvoices: SyncMapTypeSafe<Address, Invoice>
    /** The goroutines of handleInvoiceHelper and of releaseAddressHelper. */
    var timers: map<InvoiceId, Timer>
    var releases: multiset<Address>

    ghost function Mem(): Memory
      reads this, pendingInvoices
    {
      Memory(pendingInvoices.m, timers, releases)
    }

    ghost function State(): Local
      reads this, db, pendingInvoices
    {
      Local(db.View(), Mem())
    }

    constructor (coin: BaseCoin, db: Queries)
      ensures this.coin == coin && this.db == db && fresh(pendingInvoices) && Mem() == NO_MEMORY
    {
      this.coin, this.db := coin, db;
      pendingInvoices := new SyncMapTypeSafe<Address, Invoice>();
      timers, releases := map[], multiset{};
    }

    /** The coin itself, and the tokens it carries. */
    function SupportsCoin(c: Coin): (r: bool)
      ensures r <==> c == Base(coin) || (coin == ETH && c.Erc20?) || (coin == BNB && c.Bep20?)
    {
      Home(c) == Some(coin)
    }

    // ----- Creating invoices -----

    /** generateNextAddressHandler; after a failure the caller rolls back. */
    method GenerateNextAddress(user: UserId) returns (r: Option<Address>)
      modifies db`keys, db`addresses
      ensures r.Some? <==> P.DeriveNext(old(db.PoolView()), user, coin).Some?
      ensures r.Some? ==> P.DeriveNext(old(db.PoolView()), user, coin) == Some(P.Allocation(db.PoolView(), r.value))
    {
      var row := db.FindKeysAndIncrementedIndices(user, coin);
      if row.None? {
        return None;
      }
      var a := Derived(FormatOf(coin), row.value.key, row.value.last);
      var ok := db.CreateCryptoAddress(a, coin, user);
      if !ok {
        return None;
      }
      return Some(a);
    }

    /** The address is a free row of the user for the coin, if there is one, which is now occupied; otherwise a new
        occupied row of this processor, derived from the user's key at the next index. */
    ghost predicate HandsOut(p: P.Pool, p': P.Pool, user: UserId, c: Coin, a: Address) {
      && a in p'.addresses && p'.addresses[a].occupied && p'.addresses[a].user == user
      && p'.addresses == p.addresses[a := p'.addresses[a]]
      && if a in p.addresses then
           && !p.addresses[a].occupied && p'.addresses[a] == p.addresses[a].(occupied := true)
           && Base(p'.addresses[a].coin) == c && p'.keys == p.keys
         else
           && (forall x :: x in p.addresses && p.addresses[x].user == user && Base(p.addresses[x].coin) == c ==>
                 p.addresses[x].occupied)
           && p'.addresses[a].coin == coin && a.format == FormatOf(coin)
           && (user, coin) in p.keys && a.key == p.keys[(user, coin)].key
           && p'.keys == p.keys[(user, coin) := P.KeyRow(a.key, a.at)]
           && Counter.Bump(p.keys[(user, coin)].last) == Some(a.at)
    }

    /** createInvoice: one transaction; pick is the free row it found, if any, and sql says whether its INSERT of the
        invoice works. */
    method CreateInvoice(req: Request, id: InvoiceId, now: int, sql: bool)
      returns (r: Option<Invoice>, ghost pick: Address)
      requires req.confirmations < TWO32 && id !in db.invoices
      modifies db
      ensures P.PickOk(old(db.PoolView()), req.user, req.coin, pick)
      ensures r.Some? <==> sql && P.Allocate(old(db.PoolView()), req.user, req.coin, coin, pick).Some?
      ensures r.Some? ==>
                var alloc := P.Allocate(old(db.PoolView()), req.user, req.coin, coin, pick).value;
                && r.value == NewInvoice(req, id, alloc.address, now)
                && db.View() == old(db.View()).(invoices := old(db.invoices)[id := r.value], pool := alloc.pool)
      ensures r.Some? ==> Requested(req, id, now, r.value)
      ensures r.Some? ==> HandsOut(old(db.PoolView()), db.PoolView(), req.user, req.coin, r.value.address)
      ensures r.None? ==> db.View() == old(db.View())
      ensures db.heights == old(db.heights)
    {
      var saved := db.Save();
      var timeout := req.timeout;
      if timeout < MIN_SYNC_TIMEOUT {
        timeout := MIN_SYNC_TIMEOUT;
      }
      var address := db.FindNonOccupied(req.user, req.coin);
      pick := if address.Some? then address.value else Derived(FormatOf(coin), Hd(0), Indices(0, 0));
      if address.None? {
        address := GenerateNextAddress(req.user);
        if address.None? {
          db.Rollback(saved);
          return None, pick;
        }
      }
      if !sql {
        db.Rollback(saved);
        return None, pick;
      }
      var inv := Invoice(id, address.value, req.coin, req.amount, None, Int16(req.confirmations), PENDING,
                         now + timeout, None, req.user);
      db.CreateInvoice(inv);
      r := Some(inv);
    }

    /** handleInvoice. */
    method HandleInvoice(inv: Invoice)
      modifies this`timers, pendingInvoices
      ensures Mem() == Register(old(Mem()), inv)
    {
      var entry := pendingInvoices.Load(inv.address);
      if entry.Some? {
        return;
      }
      pendingInvoices.Store(inv.address, inv);
      timers := timers[inv.id := Timer(inv.address, false)];
    }

    /** handleInvoicePbReq. */
    method HandleInvoicePbReq(req: Request, id: InvoiceId, now: int, sql: bool)
      returns (r: Option<Invoice>, ghost pick: Address)
      requires req.confirmations < TWO32 && id !in db.invoices
      modifies this`timers, pendingInvoices, db
      ensures P.PickOk(old(db.PoolView()), req.user, req.coin, pick)
      ensures State() == TryCreate(old(State()), coin, req, id, now, pick, sql)
      ensures r.Some? ==> db.invoices == old(db.invoices)[id := r.value]
      ensures r.Some? ==> Requested(req, id, now, r.value)
      ensures r.Some? ==> HandsOut(old(db.PoolView()), db.PoolView(), req.user, req.coin, r.value.address)
      ensures r.None? ==> State() == old(State())
    {
      if !SupportsCoin(req.coin) {
        ghost var p := SomePick(db.PoolView(), req.user, req.coin);
        return None, p;
      }
      r, pick := CreateInvoice(req, id, now, sql);
      if r.None? {
        return;
      }
      assert id in db.invoices;
      HandleInvoice(r.value);
    }

    // ----- Settling and expiring -----

    /** expireInvoice; sql says whether its transaction works. */
    method ExpireInvoice(id: InvoiceId, a: Address, sql: bool)
      requires db.Keyed()
      modifies this`releases, pendingInvoices, db`invoices, db`audit
      ensures State() == Expire(old(State()), id, a, sql) && db.Keyed()
    {
      var entry := pendingInvoices.LoadAndDelete(a);
      if entry.None? {
        assert pendingInvoices.m == old(pendingInvoices.m);
        return;
      }
      if !sql {
        return;
      }
      var row := db.ExpireInvoiceById(id);
      if row.None? {
        return;
      }
      releases := releases + multiset{a};
    }

    /** confirmPENDING_MEMPOOL on the entry at a. */
    method ConfirmPendingMempool(a: Address, amount: nat, tx: TxId, sql: bool)
      requires a in pendingInvoices.m && db.Keyed()
      modifies pendingInvoices, db`invoices, db`audit
      ensures State() == MarkMempool(old(State()), a, amount, tx, sql) && db.Keyed()
    {
      if !sql {
        return;
      }
      var entry := pendingInvoices.Load(a);
      var row := db.ConfirmInvoiceStatusMempoolById(entry.value.id, amount, tx);
      if row.None? {
        return;
      }
      pendingInvoices.Store(a, row.value);
    }

    /** confirmCONFIRMED on the entry at a; also what verifyTxOnNewBlock does for it. */
    method ConfirmConfirmed(a: Address, reply: Reply, sql: bool)
      requires a in pendingInvoices.m && db.Keyed()
      modifies this, pendingInvoices, db`invoices, db`audit, db`confs
      ensures State() == Confirm(old(State()), a, reply, sql) && db.Keyed()
    {
      var inv := pendingInvoices.m[a];
      if inv.txId.None? || reply.Unreachable? {
        return;
      }
      if reply.Rejected? {
        ExpireInvoice(inv.id, inv.address, sql);
        return;
      }
      if Uint64(inv.confirmations) > reply.confirmations {
        return;
      }
      var entry := pendingInvoices.LoadAndDelete(inv.address);
      if entry.None? {
        assert pendingInvoices.m == old(pendingInvoices.m);
        return;
      }
      if inv.id in timers {
        timers := timers[inv.id := timers[inv.id].(cancelled := true)];
      }
      if !sql {
        return;
      }
      var row := db.ConfirmInvoiceById(inv.id, reply.confirmations);
      if row.None? {
        return;
      }
      releases := releases + multiset{inv.address};
    }

    /** The entry's row has the address under which the entry is tracked. */
    ghost predicate AtOwnAddress(a: Address)
      reads pendingInvoices, db
    {
      && a in pendingInvoices.m && pendingInvoices.m[a].address == a
      && (pendingInvoices.m[a].id in db.invoices ==> db.invoices[pendingInvoices.m[a].id].address == a)
    }

    /** The goroutine that verifyTxOnMempool starts for the entry at a; verdict is what verifyTxHandler returned. */
    method VerifyEntry(a: Address, tx: TxId, verdict: Option<nat>, markSql: bool, reply: Reply, sql: bool)
      requires AtOwnAddress(a) && db.Keyed()
      modifies this, pendingInvoices, db`invoices, db`audit, db`confs
      ensures State() == CheckTx(old(State()), a, tx, verdict, markSql, reply, sql) && db.Keyed()
    {
      var inv := pendingInvoices.m[a];
      if verdict.None? {
        return;
      }
      if inv.required <= verdict.value && inv.status == PENDING {
        var saved := db.invoices;
        ghost var savedAudit := db.audit;
        ConfirmPendingMempool(a, verdict.value, tx, markSql);
        var marked := pendingInvoices.m[a];
        if reply.Rejected? && marked.txId.Some? {
          // expireInvoice waits for the row lock that this transaction holds: no further statement returns.
          var entry := pendingInvoices.LoadAndDelete(marked.address);
          db.RollbackInvoices(saved, savedAudit);
          assert pendingInvoices.m == old(pendingInvoices.m) - {marked.address};
          return;
        }
        ConfirmConfirmed(a, reply, sql);
      }
    }

    /** The goroutine of an entry that Range handed out. */
    method VisitTx(a: Address, tx: TxId, c: TxCheck)
      requires OwnAddresses(State()) && db.Keyed()
      modifies this, pendingInvoices, db`invoices, db`audit, db`confs
      ensures Leads(old(State()), coin, DoCheckTx(a, tx, c.verdict, c.markSql, c.reply, c.sql), State())
      ensures OwnAddresses(State()) && db.Keyed()
    {
      if a in pendingInvoices.m {
        CheckTxKeepsAddresses(State(), a, tx, c);
        VerifyEntry(a, tx, c.verdict, c.markSql, c.reply, c.sql);
      }
    }

    method VisitBlock(a: Address, c: BlockCheck)
      requires db.Keyed()
      modifies this, pendingInvoices, db`invoices, db`audit, db`confs
      ensures Leads(old(State()), coin, DoCheckBlock(a, c.reply, c.sql), State()) && db.Keyed()
    {
      if a in pendingInvoices.m {
        ConfirmConfirmed(a, c.reply, c.sql);
      }
    }

    /** verifyTxOnMempool: Range hands every entry to a goroutine; here these run one after the other, in the order in
        which the map gives them. */
    method VerifyTxOnMempool(doubleSpend: bool, tx: TxId, check: Address -> TxCheck)
      returns (ghost order: seq<Address>, ghost trace: seq<Local>)
      requires OwnAddresses(State()) && db.Keyed()
      modifies this, pendingInvoices, db`invoices, db`audit, db`confs
      ensures doubleSpend ==> State() == old(State())
      ensures !doubleSpend ==>
                && Visits(order, old(pendingInvoices.m).Keys)
                && AllChecked(trace, order, coin, tx, check)
                && trace[0] == old(State()) && trace[|order|] == State()
                && (Invariants.Inv(old(State()), coin) ==>
                      && (forall a :: a in order ==> a in old(State()).mem.pending)
                      && MempoolOutcome(old(State()), State(), order, tx, check))
    {
      order, trace := [], [State()];
      if doubleSpend {
        return;
      }
      var left := pendingInvoices.m.Keys;
      while left != {}
        invariant forall a :: a in old(pendingInvoices.m).Keys <==> a in left || a in order
        invariant forall a :: a in order ==> a !in left
        invariant forall i, j :: 0 <= i < j < |order| ==> order[i] != order[j]
        invariant TxRange(trace, order, coin, tx, check)
        invariant trace[0] == old(State()) && trace[|order|] == State()
        invariant OwnAddresses(State()) && db.Keyed()
        decreases |left|
      {
        var a :| a in left;
        left := left - {a};
        VisitTx(a, tx, check(a));
        TxRangeSnoc(trace, order, coin, tx, check, a, State());
        order, trace := order + [a], trace + [State()];
      }
      EachChecked(trace, order, coin, tx, check);
      if Invariants.Inv(trace[0], coin) {
        MempoolSettles(trace, order, coin, tx, check);
      }
    }

    /** verifyTxOnNewBlock, likewise. */
    method VerifyTxOnNewBlock(check: Address -> BlockCheck) returns (ghost order: seq<Address>, ghost trace: seq<Local>)
      requires db.Keyed()
      modifies this, pendingInvoices, db`invoices, db`audit, db`confs
      ensures Visits(order, old(pendingInvoices.m).Keys)
      ensures BlockRange(trace, order, coin, check) && trace[0] == old(State()) && trace[|order|] == State()
      ensures OwnAddresses(old(State())) ==> AllConfirmed(trace, order, coin, check)
      ensures Invariants.Inv(old(State()), coin) ==> BlockOutcome(old(State()), State(), check)
    {
      order, trace := [], [State()];
      var left := pendingInvoices.m.Keys;
      while left != {}
        invariant forall a :: a in old(pendingInvoices.m).Keys <==> a in left || a in order
        invariant forall a :: a in order ==> a !in left
        invariant forall i, j :: 0 <= i < j < |order| ==> order[i] != order[j]
        invariant BlockRange(trace, order, coin, check)
        invariant trace[0] == old(State()) && trace[|order|] == State() && db.Keyed()
        decreases |left|
      {
        var a :| a in left;
        left := left - {a};
        VisitBlock(a, check(a));
        BlockRangeSnoc(trace, order, coin, check, a, State());
        order, trace := order + [a], trace + [State()];
      }
      if OwnAddresses(trace[0]) {
        EachConfirmed(trace, order, coin, check);
      }
      if Invariants.Inv(trace[0], coin) {
        InvOwnsAddresses(trace[0], coin);
        BlockSettles(trace, order, coin, check);
      }
    }

    /** handleInvoiceHelper for one invoice; due says which case its select takes. */
    method HandleInvoiceHelper(id: InvoiceId, due: bool, sql: bool)
      requires id in timers && (due || timers[id].cancelled) && db.Keyed()
      modifies this, pendingInvoices, db`invoices, db`audit
      ensures State() == (if due then Fire(old(State()), id, sql) else TimerExit(old(State()), id)) && db.Keyed()
      ensures timers == old(timers) - {id}
      ensures !due ==> db.View() == old(db.View()) && pendingInvoices.m == old(pendingInvoices.m)
    {
      var timer := timers[id];
      timers := timers - {id};
      if due {
        ExpireInvoice(id, timer.address, sql && !timer.cancelled);
      }
    }

    /** One spawned releaseAddressHelper. */
    method ReleaseAddressHelper(a: Address, sql: bool)
      requires a in releases
      modifies this`releases, db`addresses
      ensures State() == RunRelease(old(State()), a, sql)
      ensures releases == old(releases) - multiset{a} && db.addresses.Keys == old(db.addresses).Keys
      ensures forall x :: x in db.addresses ==>
                db.addresses[x] == if x == a && sql then old(db.addresses)[x].(occupied := false)
                                   else old(db.addresses)[x]
    {
      releases := releases - multiset{a};
      if sql {
        db.UpdateIsOccupied(a, false);
      }
    }

    // ----- The saved height -----

    /** persistCryptoCache with the height that LastSyncedBlockHeight returned: the cast back gives the same height. */
    method PersistCryptoCache(height: nat, sql: bool)
      requires height < TWO64
      modifies db`heights
      ensures sql && coin in old(db.heights) ==>
                && db.heights.Keys == old(db.heights).Keys
                && (forall b :: b in db.heights && b != coin ==> db.heights[b] == old(db.heights)[b])
                && db.heights[coin] == Some(Int64(height)) && Uint64(Int64(height)) == height
      ensures !sql || coin !in old(db.heights) ==> db.heights == old(db.heights)
    {
      HeightRoundTrip(height);
      if sql {
        db.UpdateCryptoCacheByCoin(coin, Int64(height));
      }
    }

    /** The height that load hands to the listener: the saved one, else exactly the tip the daemon reported. */
    method StartHeight(tip: Option<nat>) returns (height: Option<nat>)
      requires tip.Some? ==> tip.value < TWO64
      requires coin in db.heights && db.heights[coin].Some? ==> -TWO63 <= db.heights[coin].value < TWO63
      ensures height.Some? <==> coin in db.heights && tip.Some?
      ensures height.Some? && db.heights[coin].None? ==> height == tip
      ensures forall h: nat :: h < TWO64 && height.Some? && db.heights[coin] == Some(Int64(h)) ==> height == Some(h)
    {
      var cache := db.FindCryptoCacheByCoin(coin);
      if cache.None? || tip.None? {
        return None;
      }
      var h := Int64(tip.value);
      if cache.value.Some? {
        h := cache.value.value;
      }
      height := Some(Uint64(h));
    }
  }
}
