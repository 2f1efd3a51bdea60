/** Why exclusivity needs runs without effective rejections: the rejection branch expires an invoice without cancelling
    its timer, and that timer later removes the invoice that reuses the address. */
module RejectedTimer {
  import opened Domain
  import opened Lifecycle
  import opened Invariants
  import opened PaymentSystem
  import P = Pool
  import Counter
  import KeyReuse

  const OWNER: Key := Hd(7)
  const ADDR: Address := Derived(FEvm, OWNER, Indices(0, 1))

  function Ask(id: InvoiceId): Step {
    Handle(ETH, DoCreate(Request(0, Base(ETH), 1, 0, 0), id, 0, ADDR))
  }

  const FREE: Step := Handle(ETH, DoRelease(ADDR, true))
  const MARK: Step := Handle(ETH, DoCheckTx(ADDR, 0, Some(1), true, Unreachable, true))
  const REJECT: Step := Handle(ETH, DoCheckBlock(ADDR, Rejected, true))
  const STALE_FIRE: Step := Handle(ETH, DoFire(0, true))

  /** A key, a running processor and a transaction. */
  const SETUP: seq<Step> :=
    [UpdateCryptoKeys(0, [P.KeyRequest(ETH, OWNER, true)])] + [Restart(0, {ETH}, [])] + [Observe(0, [])]

  /** The first invoice is created and marked; with a later block its transaction is rejected, and its address is
      released. */
  const REJECTION: seq<Step> := SETUP + [Ask(0)] + [MARK] + [REJECT] + [FREE]

  /** The address is reused, the first invoice's timer fires, and the address is released and reused again. */
  const REUSE: seq<Step> := REJECTION + [Ask(1)] + [STALE_FIRE] + [FREE] + [Ask(2)]

  const FIRST: Invoice := Invoice(0, ADDR, Base(ETH), 1, None, 0, PENDING, 10, None, 0)
  const MARKED: Invoice := FIRST.(status := PENDING_MEMPOOL, actual := Some(1), txId := Some(0))
  const FIRST_EXPIRED: Invoice := MARKED.(status := EXPIRED)

  function Issued(occupied: bool): P.Pool {
    P.Pool(map[(0, ETH) := P.KeyRow(OWNER, Indices(0, 1))], map[ADDR := P.AddressRow(ETH, occupied, 0)])
  }

  const READY: System :=
    System(Db(map[], P.Pool(map[(0, ETH) := P.KeyRow(OWNER, Counter.RESET)], map[]), [], map[]),
           map[ETH := NO_MEMORY], map[0 := []])

  const CREATED: System :=
    System(Db(map[0 := FIRST], Issued(true), [], map[]),
           map[ETH := Memory(map[ADDR := FIRST], map[0 := Timer(ADDR, false)], multiset{})], map[0 := []])

  const SEEN: System :=
    System(Db(map[0 := MARKED], Issued(true), [StatusWrite(0, PENDING, PENDING_MEMPOOL)], map[]),
           map[ETH := Memory(map[ADDR := MARKED], map[0 := Timer(ADDR, false)], multiset{})], map[0 := []])

  const WRITES: seq<StatusWrite> :=
    [StatusWrite(0, PENDING, PENDING_MEMPOOL)] + [StatusWrite(0, PENDING_MEMPOOL, EXPIRED)]

  const TURNED: System :=
    System(Db(map[0 := FIRST_EXPIRED], Issued(true), WRITES, map[]),
           map[ETH := Memory(map[], map[0 := Timer(ADDR, false)], multiset{ADDR})], map[0 := []])

  const FREED: System :=
    System(Db(map[0 := FIRST_EXPIRED], Issued(false), WRITES, map[]),
           map[ETH := Memory(map[], map[0 := Timer(ADDR, false)], multiset{})], map[0 := []])

  lemma GetsReady()
    ensures Exec(SETUP) == Some(READY)
  {
    var update, restart, observe :=
      UpdateCryptoKeys(0, [P.KeyRequest(ETH, OWNER, true)]), Restart(0, {ETH}, []), Observe(0, []);
    KeyReuse.ExecSnoc([], update);
    var s1 := Apply(INIT, update);
    assert P.UpdateEach(P.EMPTY, 0, update.requests) == P.UpdateKey(P.EMPTY, 0, update.requests[0]);
    assert s1.db.pool.addresses == map[];
    assert [] + [update] == [update];
    KeyReuse.ExecSnoc([update], restart);
    var s2 := Apply(s1, restart);
    assert s2.procs == map[ETH := NO_MEMORY];
    KeyReuse.ExecSnoc([update] + [restart], observe);
    assert SETUP == [update] + [restart] + [observe];
  }

  lemma CreateFirst()
    ensures Enabled(READY, Ask(0)) && Apply(READY, Ask(0)) == CREATED
  {
    assert !P.HasFree(READY.db.pool, 0, Base(ETH));
    var r := P.Allocate(READY.db.pool, 0, Base(ETH), ETH, ADDR);
    assert P.NextAddress(READY.db.pool, 0, ETH) == Some(ADDR);
    assert r.value.pool.keys == Issued(true).keys && r.value.pool.addresses == Issued(true).addresses;
    assert r == Some(P.Allocation(Issued(true), ADDR));
    assert NewInvoice(Request(0, Base(ETH), 1, 0, 0), 0, ADDR, 0) == FIRST;
  }

  lemma MarkFirst()
    ensures Enabled(CREATED, MARK) && Apply(CREATED, MARK) == SEEN
  {
    var l := At(CREATED, ETH);
    var marked := SetMempool(l.db, 0, 1, 0).value;
    assert marked.invoices == SEEN.db.invoices && marked.audit == SEEN.db.audit;
    var l1 := Local(SEEN.db, l.mem.(pending := map[ADDR := MARKED]));
    assert MarkMempool(l, ADDR, 1, 0, true) == l1;
    assert Confirm(l1, ADDR, Unreachable, true) == l1 == At(SEEN, ETH);
  }

  lemma RejectFirst()
    ensures Enabled(SEEN, REJECT) && Apply(SEEN, REJECT) == TURNED
  {
    var expired := SetExpired(SEEN.db, 0).value;
    assert expired.invoices == map[0 := FIRST_EXPIRED] && expired.audit == WRITES;
    assert Confirm(At(SEEN, ETH), ADDR, Rejected, true) == At(TURNED, ETH);
  }

  lemma FreesFirst()
    ensures Enabled(TURNED, FREE) && Apply(TURNED, FREE) == FREED
  {
    assert P.SetOccupied(Issued(true), ADDR, false).addresses == Issued(false).addresses;
  }

  lemma GetsTurned()
    ensures Exec(SETUP + [Ask(0)] + [MARK] + [REJECT]) == Some(TURNED)
  {
    GetsReady();
    CreateFirst();
    KeyReuse.ExecSnoc(SETUP, Ask(0));
    MarkFirst();
    KeyReuse.ExecSnoc(SETUP + [Ask(0)], MARK);
    RejectFirst();
    KeyReuse.ExecSnoc(SETUP + [Ask(0)] + [MARK], REJECT);
  }

  lemma GetsFreed()
    ensures Exec(REJECTION) == Some(FREED)
  {
    GetsTurned();
    FreesFirst();
    KeyReuse.ExecSnoc(SETUP + [Ask(0)] + [MARK] + [REJECT], FREE);
  }

  const SECOND: Invoice := FIRST.(id := 1)
  const THIRD: Invoice := FIRST.(id := 2)

  const REUSED: System :=
    System(Db(map[0 := FIRST_EXPIRED, 1 := SECOND], Issued(true), WRITES, map[]),
           map[ETH := Memory(map[ADDR := SECOND], map[0 := Timer(ADDR, false), 1 := Timer(ADDR, false)], multiset{})],
           map[0 := []])

  /** The second invoice's entry is gone although it is pending, and its address is released. */
  const LOST: System :=
    System(Db(map[0 := FIRST_EXPIRED, 1 := SECOND], Issued(true), WRITES + [StatusWrite(0, EXPIRED, EXPIRED)], map[]),
           map[ETH := Memory(map[], map[1 := Timer(ADDR, false)], multiset{ADDR})], map[0 := []])

  const LOST_FREED: System :=
    LOST.(db := LOST.db.(pool := Issued(false)),
          procs := map[ETH := Memory(map[], map[1 := Timer(ADDR, false)], multiset{})])

  lemma Reuses(s: System, id: InvoiceId, m: Memory)
    requires s.db.pool == Issued(false) && s.procs == map[ETH := m] && id !in s.db.invoices && ADDR !in m.pending
    ensures var inv := FIRST.(id := id);
            && Enabled(s, Ask(id))
            && Apply(s, Ask(id)) == System(s.db.(invoices := s.db.invoices[id := inv], pool := Issued(true)),
                                           map[ETH := Register(m, inv)], s.seen)
  {
    assert P.FreeFor(s.db.pool, 0, Base(ETH), ADDR);
    assert P.SetOccupied(s.db.pool, ADDR, true).addresses == Issued(true).addresses;
    assert NewInvoice(Request(0, Base(ETH), 1, 0, 0), id, ADDR, 0) == FIRST.(id := id);
  }

  lemma Fires()
    ensures Enabled(REUSED, STALE_FIRE) && Apply(REUSED, STALE_FIRE) == LOST
  {
    var l := At(REUSED, ETH);
    var l1 := l.(mem := Memory(map[ADDR := SECOND], map[1 := Timer(ADDR, false)], multiset{}));
    assert l.mem.timers - {0} == l1.mem.timers;
    assert Expire(l1, 0, ADDR, true) == At(LOST, ETH);
  }

  const TWICE: System :=
    System(Db(map[0 := FIRST_EXPIRED, 1 := SECOND, 2 := THIRD], Issued(true), LOST.db.audit, map[]),
           map[ETH := Memory(map[ADDR := THIRD], map[1 := Timer(ADDR, false), 2 := Timer(ADDR, false)], multiset{})],
           map[0 := []])

  lemma ReusesOnce()
    ensures Enabled(FREED, Ask(1)) && Apply(FREED, Ask(1)) == REUSED
  {
    Reuses(FREED, 1, FREED.procs[ETH]);
  }

  lemma GetsLost()
    ensures Exec(REJECTION + [Ask(1)] + [STALE_FIRE]) == Some(LOST)
  {
    GetsFreed();
    ReusesOnce();
    KeyReuse.ExecSnoc(REJECTION, Ask(1));
    Fires();
    KeyReuse.ExecSnoc(REJECTION + [Ask(1)], STALE_FIRE);
  }

  lemma FreesAgain()
    ensures Enabled(LOST, FREE) && Apply(LOST, FREE) == LOST_FREED
  {
    assert P.SetOccupied(Issued(true), ADDR, false).addresses == Issued(false).addresses;
  }

  lemma ReusesAgain()
    ensures Enabled(LOST_FREED, Ask(2)) && Apply(LOST_FREED, Ask(2)) == TWICE
  {
    Reuses(LOST_FREED, 2, LOST_FREED.procs[ETH]);
  }

  lemma GetsTwice()
    ensures Exec(REUSE) == Some(TWICE)
  {
    GetsLost();
    FreesAgain();
    KeyReuse.ExecSnoc(REJECTION + [Ask(1)] + [STALE_FIRE], FREE);
    ReusesAgain();
    KeyReuse.ExecSnoc(REJECTION + [Ask(1)] + [STALE_FIRE] + [FREE], Ask(2));
  }

  /** In this run of ETH two pending invoices share an address, and an expired row is expired again. */
  lemma RejectionBreaksExclusivity()
    ensures Exec(REUSE).Some? && !Exclusive(Exec(REUSE).value.db, ETH)
    ensures StatusWrite(0, EXPIRED, EXPIRED) in Exec(REUSE).value.db.audit
  {
    GetsTwice();
    assert PendingIn(TWICE.db, ETH, 1) && PendingIn(TWICE.db, ETH, 2);
    assert TWICE.db.audit[2] == StatusWrite(0, EXPIRED, EXPIRED);
  }
}
