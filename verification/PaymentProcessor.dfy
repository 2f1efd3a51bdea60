/** The PaymentProcessor object: restart recovery and dispatch over its processors. */
module PaymentProcessor {
  import opened Domain
  import opened Confirmations
  import opened Lifecycle
  import opened Database
  import opened Processor
  import P = Pool
  import Frames

  class PaymentProcessor {
    const db: Queries
    var cryptoProcessors: map<BaseCoin, BaseCryptoProcessor>
    ghost var Repr: set<object>

    /** The processor under b is its own: it has the coin b, shares the database and keeps its state inside Repr. */
    ghost predicate Owned(b: BaseCoin)
      requires b in cryptoProcessors
      reads this
    {
      var cp := cryptoProcessors[b];
      cp.coin == b && cp.db == db && cp in Repr && cp.pendingInvoices in Repr
    }

    ghost predicate Valid()
      reads this
    {
      && this !in Repr && db !in Repr
      && (forall b :: b in cryptoProcessors ==> Owned(b))
      && (forall b, c :: b in cryptoProcessors && c in cryptoProcessors && b != c
                         ==> cryptoProcessors[b].pendingInvoices != cryptoProcessors[c].pendingInvoices)
    }

    ghost function MemOf(b: BaseCoin): Memory
      requires Valid() && b in cryptoProcessors
      reads this, Repr
    {
      assert Owned(b);
      cryptoProcessors[b].Mem()
    }

    /** No processor tracks anything yet. */
    ghost predicate Untouched()
      requires Valid()
      reads this, Repr
    {
      forall b :: b in cryptoProcessors ==> MemOf(b) == NO_MEMORY
    }

    /** NewPaymentProcessor up to its call of load; configured are the coins with a daemon URL. */
    constructor (db: Queries, configured: set<BaseCoin>)
      ensures this.db == db && Valid() && Untouched() && fresh(Repr)
      ensures forall b :: b in cryptoProcessors <==> b in configured
    {
      this.db := db;
      cryptoProcessors := map[];
      Repr := {};
      new;
      SetUp(XMR, configured);
      SetUp(BTC, configured);
      SetUp(LTC, configured);
      SetUp(ETH, configured);
      SetUp(BNB, configured);
      forall b
        ensures b in cryptoProcessors <==> b in configured
      {
        assert b == XMR || b == BTC || b == LTC || b == ETH || b == BNB;
      }
    }

    method SetUp(b: BaseCoin, configured: set<BaseCoin>)
      requires Valid() && Untouched() && b !in cryptoProcessors
      modifies this
      ensures Valid() && Untouched() && Repr >= old(Repr) && fresh(Repr - old(Repr))
      ensures cryptoProcessors.Keys == old(cryptoProcessors.Keys) + (if b in configured then {b} else {})
    {
      if b in configured {
        var cp := new BaseCryptoProcessor(b, db);
        cryptoProcessors := cryptoProcessors[b := cp];
        Repr := Repr + {cp, cp.pendingInvoices};
        forall c | c in cryptoProcessors
          ensures Owned(c)
          ensures c != b ==> cryptoProcessors[c].pendingInvoices != cp.pendingInvoices
          ensures cryptoProcessors[c].Mem() == NO_MEMORY
        {
          if c != b {
            assert old(Owned(c)) && old(MemOf(c)) == NO_MEMORY;
          }
        }
      }
    }

    /** The body of the inner loop of loadPersistedPendingInvoices. */
    method OfferTo(b: BaseCoin, inv: Invoice)
      requires Valid() && b in cryptoProcessors
      modifies Repr
      ensures MemOf(b) == if Home(inv.coin) == Some(b) then Register(old(MemOf(b)), inv) else old(MemOf(b))
      ensures forall c :: c in cryptoProcessors && c != b ==> MemOf(c) == old(MemOf(c))
    {
      assert forall c :: c in cryptoProcessors ==> Owned(c);
      var cp := cryptoProcessors[b];
      if cp.SupportsCoin(inv.coin) {
        cp.HandleInvoice(inv);
      }
    }

    /** The inner loop: every processor in turn, in whatever order the map iteration takes. */
    method Offer(inv: Invoice)
      requires Valid()
      modifies Repr
      ensures forall b :: b in cryptoProcessors ==>
                MemOf(b) == if Home(inv.coin) == Some(b) then Register(old(MemOf(b)), inv) else old(MemOf(b))
    {
      var left := cryptoProcessors.Keys;
      while left != {}
        invariant left <= cryptoProcessors.Keys
        invariant forall b :: b in cryptoProcessors ==>
                    MemOf(b) == if b !in left
                        && Home(inv.coin) == Some(b) then Register(old(MemOf(b)), inv) else old(MemOf(b))
        decreases |left|
      {
        var b :| b in left;
        left := left - {b};
        OfferTo(b, inv);
      }
    }

    /** loadPersistedPendingInvoices, started with empty maps: the deadlines are moved, and each processor ends with
        what Load says for the pending rows, whatever order the map iterations take. */
    method LoadPersistedPendingInvoices(now: int) returns (ghost rows: seq<Invoice>)
      requires Valid() && db.Keyed() && Untouched()
      modifies db`invoices, Repr
      ensures db.View() == Shift(old(db.View()), now)
      ensures Frames.Lists(db.View(), rows)
      ensures forall b :: b in cryptoProcessors ==> MemOf(b) == Load(b, rows)
    {
      db.ShiftExpiresAtForNonConfirmedInvoices(now);
      var invoices := db.FindAllPendingInvoices();
      rows := invoices;
      label Loaded:
      for i := 0 to |invoices|
        invariant db.View() == old@Loaded(db.View())
        invariant forall b :: b in cryptoProcessors ==> MemOf(b) == Load(b, invoices[..i])
      {
        assert invoices[..i + 1][..i] == invoices[..i];
        Offer(invoices[i]);
      }
      assert invoices[..|invoices|] == invoices;
    }

    /** HandleNewInvoice: the request reaches the processor of its coin, if it is set up, and no other. */
    method HandleNewInvoice(req: Request, id: InvoiceId, now: int, sql: bool)
      returns (r: Option<Invoice>, ghost pick: Address)
      requires Valid() && req.confirmations < TWO32 && id !in db.invoices
      modifies db, Repr
      ensures forall b :: b in cryptoProcessors && Home(req.coin) != Some(b) ==> MemOf(b) == old(MemOf(b))
      ensures forall b :: b in cryptoProcessors && Home(req.coin) == Some(b)
                          ==> && P.PickOk(old(db.PoolView()), req.user, req.coin, pick)
                              && Local(db.View(), MemOf(b))
                                 == TryCreate(Local(old(db.View()), old(MemOf(b))), b, req, id, now, pick, sql)
      ensures (forall b :: b in cryptoProcessors ==> Home(req.coin) != Some(b)) ==> r.None?
      ensures r.Some? ==> db.invoices == old(db.invoices)[id := r.value]
      ensures r.Some? ==> Requested(req, id, now, r.value)
      ensures r.None? ==> db.View() == old(db.View())
    {
      var left := cryptoProcessors.Keys;
      while left != {}
        invariant left <= cryptoProcessors.Keys
        invariant forall b :: b in cryptoProcessors && b !in left ==> Home(req.coin) != Some(b)
        invariant unchanged(db) && unchanged(Repr)
        decreases |left|
      {
        var b :| b in left;
        left := left - {b};
        if cryptoProcessors[b].SupportsCoin(req.coin) {
          r, pick := Dispatch(b, req, id, now, sql);
          return;
        }
      }
      return None, Derived(FBtc, Hd(0), Indices(0, 0));
    }

    method Dispatch(b: BaseCoin, req: Request, id: InvoiceId, now: int, sql: bool)
      returns (r: Option<Invoice>, ghost pick: Address)
      requires Valid() && req.confirmations < TWO32 && id !in db.invoices && b in cryptoProcessors
      modifies db, Repr
      ensures forall c :: c in cryptoProcessors && c != b ==> MemOf(c) == old(MemOf(c))
      ensures P.PickOk(old(db.PoolView()), req.user, req.coin, pick)
      ensures Local(db.View(), MemOf(b))
              == TryCreate(Local(old(db.View()), old(MemOf(b))), b, req, id, now, pick, sql)
      ensures r.Some? ==> db.invoices == old(db.invoices)[id := r.value]
      ensures r.Some? ==> Requested(req, id, now, r.value)
      ensures r.None? ==> db.View() == old(db.View())
    {
      assert forall c :: c in cryptoProcessors ==> Owned(c);
      var cp := cryptoProcessors[b];
      r, pick := cp.HandleInvoicePbReq(req, id, now, sql);
    }
  }
}
