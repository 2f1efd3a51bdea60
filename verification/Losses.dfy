/** Two runs in which something is lost: a crash before a release leaves an address occupied for good, and a cancelled
    timer takes the entry of the invoice that uses its address next. */
module Losses {
  import opened Domain
  import opened Lifecycle
  import opened Invariants
  import opened PaymentSystem
  import opened RejectedTimer
  import P = Pool
  import Frames
  import KeyReuse
  import Leaks

  // ----- An address that stays occupied -----

  const FIRE: Step := Handle(ETH, DoFire(0, true))
  const CRASH: Step := Restart(0, {ETH}, [])

  /** The invoice expires, and the process crashes before its address is released. */
  const LEAK: seq<Step> := SETUP + [Ask(0)] + [FIRE] + [CRASH]

  const UNPAID: Invoice := FIRST.(status := EXPIRED)

  const FIRED: System :=
    System(Db(map[0 := UNPAID], Issued(true), [StatusWrite(0, PENDING, EXPIRED)], map[]),
           map[ETH := Memory(map[], map[], multiset{ADDR})], map[0 := []])

  lemma FiresFirst()
    ensures Enabled(CREATED, FIRE) && Apply(CREATED, FIRE) == FIRED
  {
    var l := At(CREATED, ETH);
    var l1 := l.(mem := Memory(map[ADDR := FIRST], map[], multiset{}));
    assert l.mem.timers - {0} == l1.mem.timers;
    assert SetExpired(l.db, 0).value.invoices == FIRED.db.invoices;
    assert SetExpired(l.db, 0).value.audit == FIRED.db.audit;
    assert l1.mem.pending - {ADDR} == map[];
    assert Expire(l1, 0, ADDR, true) == At(FIRED, ETH);
  }

  /** After this run the address is occupied, but no pending invoice uses it and no release will free it; the crash is
      the step that lost it. */
  lemma CrashLeaks()
    ensures Exec(LEAK).Some? && Leaks.LosesRelease(Exec(LEAK[..|LEAK| - 1]).value, CRASH, ETH)
    ensures var s := Exec(LEAK).value;
            && ADDR in s.db.pool.addresses && s.db.pool.addresses[ADDR].occupied
            && !Claimed(s.db, ETH, Mem(s, ETH), ADDR)
  {
    GetsReady();
    CreateFirst();
    KeyReuse.ExecSnoc(SETUP, Ask(0));
    FiresFirst();
    KeyReuse.ExecSnoc(SETUP + [Ask(0)], FIRE);
    assert Frames.Lists(Shift(FIRED.db, 0), []);
    KeyReuse.ExecSnoc(SETUP + [Ask(0)] + [FIRE], CRASH);
    assert LEAK[..|LEAK| - 1] == SETUP + [Ask(0)] + [FIRE];
    assert Leaks.OccupiedBy(FIRED.db.pool, ETH, ADDR);
  }

  // ----- An invoice that nothing tracks -----

  const CONFIRM: Step := Handle(ETH, DoCheckTx(ADDR, 0, Some(1), true, Seen(0), true))

  /** The first invoice is paid and confirmed, which cancels its timer; its address is released and reused, and the
      cancelled timer, whose deadline has passed as well, takes its expiry branch. */
  const STRAND: seq<Step> := SETUP + [Ask(0)] + [CONFIRM] + [FREE] + [Ask(1)] + [STALE_FIRE]

  const PAID: Invoice := MARKED.(status := CONFIRMED)

  const SETTLED: System :=
    System(Db(map[0 := PAID], Issued(true),
              [StatusWrite(0, PENDING, PENDING_MEMPOOL)] + [StatusWrite(0, PENDING_MEMPOOL, CONFIRMED)], map[0 := 0]),
           map[ETH := Memory(map[], map[0 := Timer(ADDR, true)], multiset{ADDR})], map[0 := []])

  lemma ConfirmsFirst()
    ensures Enabled(CREATED, CONFIRM) && Apply(CREATED, CONFIRM) == SETTLED
  {
    var l := At(CREATED, ETH);
    var marked := SetMempool(l.db, 0, 1, 0).value;
    assert marked.invoices == map[0 := MARKED];
    var l1 := Local(marked, l.mem.(pending := map[ADDR := MARKED]));
    assert MarkMempool(l, ADDR, 1, 0, true) == l1;
    var confirmed := SetConfirmed(marked, 0, 0).value;
    assert confirmed.invoices == SETTLED.db.invoices && confirmed.audit == SETTLED.db.audit;
    assert confirmed.confs == SETTLED.db.confs;
    assert Cancel(l1.mem.timers, 0) == map[0 := Timer(ADDR, true)];
    assert l1.mem.pending - {ADDR} == map[];
    assert Confirm(l1, ADDR, Seen(0), true) == At(SETTLED, ETH);
  }

  const VACANT: System :=
    SETTLED.(db := SETTLED.db.(pool := Issued(false)),
             procs := map[ETH := Memory(map[], map[0 := Timer(ADDR, true)], multiset{})])

  lemma FreesSettled()
    ensures Enabled(SETTLED, FREE) && Apply(SETTLED, FREE) == VACANT
  {
    assert P.SetOccupied(Issued(true), ADDR, false).addresses == Issued(false).addresses;
  }

  const NEXT: System :=
    System(SETTLED.db.(invoices := map[0 := PAID, 1 := SECOND]),
           map[ETH := Memory(map[ADDR := SECOND], map[0 := Timer(ADDR, true), 1 := Timer(ADDR, false)], multiset{})],
           map[0 := []])

  lemma ReusesVacant()
    ensures Enabled(VACANT, Ask(1)) && Apply(VACANT, Ask(1)) == NEXT
  {
    Reuses(VACANT, 1, VACANT.procs[ETH]);
  }

  lemma GetsNext()
    ensures Exec(SETUP + [Ask(0)] + [CONFIRM] + [FREE] + [Ask(1)]) == Some(NEXT)
  {
    GetsReady();
    CreateFirst();
    KeyReuse.ExecSnoc(SETUP, Ask(0));
    ConfirmsFirst();
    KeyReuse.ExecSnoc(SETUP + [Ask(0)], CONFIRM);
    FreesSettled();
    KeyReuse.ExecSnoc(SETUP + [Ask(0)] + [CONFIRM], FREE);
    ReusesVacant();
    KeyReuse.ExecSnoc(SETUP + [Ask(0)] + [CONFIRM] + [FREE], Ask(1));
  }

  lemma TakesEntry()
    ensures Enabled(NEXT, STALE_FIRE) && StrandsIn(NEXT, STALE_FIRE, ETH)
    ensures var s := Apply(NEXT, STALE_FIRE);
            PendingIn(s.db, ETH, 1) && s.db.invoices[1].address !in Mem(s, ETH).pending
  {
  }

  lemma NothingRejected()
    ensures NeverRejected(STRAND, ETH)
  {
  }

  /** After this run, in which nothing was rejected and no statement failed, the second invoice is pending and no entry
      tracks it; the cancelled timer is the step that lost it. */
  lemma CancelledTimerStrands()
    ensures NeverRejected(STRAND, ETH)
    ensures Exec(STRAND).Some? && StrandsIn(Exec(STRAND[..|STRAND| - 1]).value, STALE_FIRE, ETH)
    ensures var s := Exec(STRAND).value;
            PendingIn(s.db, ETH, 1) && s.db.invoices[1].address !in Mem(s, ETH).pending
  {
    NothingRejected();
    GetsNext();
    TakesEntry();
    KeyReuse.ExecSnoc(SETUP + [Ask(0)] + [CONFIRM] + [FREE] + [Ask(1)], STALE_FIRE);
    assert STRAND[..|STRAND| - 1] == SETUP + [Ask(0)] + [CONFIRM] + [FREE] + [Ask(1)];
  }
}
