/** Two transactions that pay one invoice: handlers that both read PENDING mark it one after the other, so tx_id is set
    twice, and a confirmation that was asked for the first transaction confirms the second. */
module SecondMark {
  import opened Domain
  import opened Interleaving
  import opened StaleHandler
  import StolenEntry
  import L = Lifecycle

  // ----- When a set tx_id changes -----

  /** The mempool UPDATE of a handler that holds an entry for this invoice, for another transaction than the row's. */
  predicate Replaces(s: State, step: Step, id: InvoiceId)
    requires Enabled(s, step) && id in s.shared.rows
  {
    StaleMark(s, step, id) && s.shared.rows[id].txId != Some(s.threads[step.tid].tx)
  }

  /** At this point of the run the goroutine loaded the entry, whose pointer had this invoice. */
  ghost predicate LoadedAt(steps: seq<Step>, i: nat, tid: nat, c: CellId, tx: TxId, inv: Invoice) {
    && i < |steps| && steps[i].Run? && steps[i].tid == tid && Exec(steps[..i]).Some?
    && var s := Exec(steps[..i]).value;
       && tid < |s.threads| && s.threads[tid] == Checking(c, tx)
       && c < |s.shared.cells| && s.shared.cells[c].inv == inv
  }

  /** It did so before, and what it saw passed the guard so far. */
  ghost predicate Loaded(steps: seq<Step>, tid: nat, pc: Pc) {
    match pc
    case Verifying(c, tx, inv) => exists i :: LoadedAt(steps, i, tid, c, tx, inv)
    case Marking(c, tx, _) => exists i, inv :: LoadedAt(steps, i, tid, c, tx, inv) && inv.status == PENDING
    case _ => true
  }

  lemma LoadedGrows(steps: seq<Step>, tid: nat, pc: Pc)
    requires steps != [] && Loaded(steps[..|steps| - 1], tid, pc)
    ensures Loaded(steps, tid, pc)
  {
    var init := steps[..|steps| - 1];
    forall i: nat, c, tx, inv | LoadedAt(init, i, tid, c, tx, inv)
      ensures LoadedAt(steps, i, tid, c, tx, inv)
    {
      assert init[..i] == steps[..i];
    }
  }

  lemma LoadsNow(steps: seq<Step>, s: State, tid: nat)
    requires steps != [] && Exec(steps[..|steps| - 1]) == Some(s)
    requires steps[|steps| - 1].Run? && steps[|steps| - 1].tid == tid
    requires Enabled(s, steps[|steps| - 1]) && Loaded(steps, tid, s.threads[tid])
    ensures Loaded(steps, tid, Next(s.shared, s.threads[tid], steps[|steps| - 1].choice))
  {
    match s.threads[tid]
    case Checking(c, tx) => assert LoadedAt(steps, |steps| - 1, tid, c, tx, s.shared.cells[c].inv);
    case Verifying(c, tx, inv) => var i :| LoadedAt(steps, i, tid, c, tx, inv);
    case _ =>
  }

  /** A handler that is about to mark has loaded its entry while the pointer said PENDING. */
  lemma {:induction false} MarkersLoaded(steps: seq<Step>, tid: nat)
    requires Exec(steps).Some? && tid < |Exec(steps).value.threads|
    ensures Loaded(steps, tid, Exec(steps).value.threads[tid])
    decreases |steps|
  {
    if steps != [] {
      var n := |steps| - 1;
      var s := Exec(steps[..n]).value;
      if tid < |s.threads| && !steps[n].Crash? {
        MarkersLoaded(steps[..n], tid);
        LoadedGrows(steps, tid, s.threads[tid]);
        if steps[n].Run? && steps[n].tid == tid {
          LoadsNow(steps, s, tid);
        }
      }
    }
  }

  /** Under any interleaving: a set tx_id changes exactly if the step is the mempool UPDATE of a handler that loaded an
      entry of the invoice while its pointer said PENDING, for another transaction; the row then has that transaction
      and its amount. */
  lemma {:induction false} TransactionReplaced(steps: seq<Step>, step: Step, id: InvoiceId)
    requires Exec(steps).Some? && Enabled(Exec(steps).value, step)
    requires var h := Exec(steps).value.shared; id in h.rows && h.rows[id].txId.Some?
    ensures var (s, s') := (Exec(steps).value, Apply(Exec(steps).value, step));
            && id in s'.shared.rows
            && (s'.shared.rows[id].txId != s.shared.rows[id].txId <==> Replaces(s, step, id))
            && (Replaces(s, step, id) ==>
                  var pc := s.threads[step.tid];
                  && s'.shared.rows[id].txId == Some(pc.tx) && s'.shared.rows[id].actual == Some(pc.amount)
                  && exists i, inv :: LoadedAt(steps, i, step.tid, pc.cell, pc.tx, inv) && inv.status == PENDING)
  {
    var s := Exec(steps).value;
    if Replaces(s, step, id) {
      MarkersLoaded(steps, step.tid);
    }
  }

  // ----- A run in which it does -----

  /** One confirmation is required. */
  const PAYABLE: Invoice := INV.(confirmations := 1)
  const FIRST: Invoice := PAYABLE.(status := PENDING_MEMPOOL, actual := Some(1), txId := Some(0))
  const SECOND: Invoice := FIRST.(txId := Some(1))
  const ONE: Choice := Choice(None, L.Seen(1), true)
  const NONE_YET: Choice := Choice(None, L.Seen(0), true)

  /** Two transactions pay the invoice. */
  const PAID_TWICE: seq<Step> := [] + [Observe(0, OUTS)] + [Observe(1, OUTS)] + [Insert(PAYABLE)]

  /** It is registered, and both transactions are handed to a handler of its entry. */
  const HANDED: seq<Step> := PAID_TWICE + [Run(0, GO)] + [Run(0, GO)] + [RangeTx(SLOT, 0)] + [RangeTx(SLOT, 1)]

  /** Both read PENDING and decide to mark. */
  const DECIDED: seq<Step> := HANDED + [Run(2, GO)] + [Run(3, GO)] + [Run(2, GO)] + [Run(3, GO)]

  /** The first marks, publishes and returns. */
  const MARKED_ONCE: seq<Step> := DECIDED + [Run(2, GO)] + [Run(2, GO)] + [Run(2, GO)] + [Run(2, GO)]

  /** With a new block the first transaction has its confirmation: that handler stands at LoadAndDelete. */
  const SETTLED: seq<Step> := MARKED_ONCE + [RangeBlock(SLOT)] + [Run(4, GO)] + [Run(4, ONE)]

  /** The second handler marks and publishes; its transaction has no confirmation yet, so it returns. */
  const MARKED_TWICE: seq<Step> := SETTLED + [Run(3, GO)] + [Run(3, GO)] + [Run(3, GO)] + [Run(3, NONE_YET)]

  /** The block's handler removes the entry, cancels the timer and confirms the invoice. */
  const CONFIRMATION: seq<Step> := MARKED_TWICE + [Run(4, GO)] + [Run(4, GO)] + [Run(4, GO)]

  const SEEN: map<TxId, seq<Output>> := map[0 := OUTS, 1 := OUTS]

  function Tables(row: Invoice, pointer: Invoice): Shared {
    Shared(map[0 := row], SEEN, [Cell(pointer, false)], map[SLOT := 0], [Stored(SLOT)], [], [])
  }

  /** The goroutines after registration and its timer: two transaction checks, and block checks. */
  function Goroutines(first: Pc, second: Pc): seq<Pc> {
    [Done, Waiting(0, 0, SLOT), first, second]
  }

  lemma Registers()
    ensures Exec(PAID_TWICE + [Run(0, GO)] + [Run(0, GO)])
         == Some(State(Tables(PAYABLE, PAYABLE), [Done, Waiting(0, 0, SLOT)]))
  {
    Snoc([], INIT, Observe(0, OUTS));
    var s1 := Apply(INIT, Observe(0, OUTS));
    Snoc([] + [Observe(0, OUTS)], s1, Observe(1, OUTS));
    var s2 := Apply(s1, Observe(1, OUTS));
    Snoc([] + [Observe(0, OUTS)] + [Observe(1, OUTS)], s2, Insert(PAYABLE));
    var s3 := Apply(s2, Insert(PAYABLE));
    assert s3 == State(Shared(map[0 := PAYABLE], SEEN, [], map[], [], [], []), [Registering(PAYABLE)]);
    Snoc(PAID_TWICE, s3, Run(0, GO));
    var s4 := Apply(s3, Run(0, GO));
    assert s4.threads == [Storing(PAYABLE)];
    Snoc(PAID_TWICE + [Run(0, GO)], s4, Run(0, GO));
    var s5 := Apply(s4, Run(0, GO));
    assert s5.threads == [Done, Waiting(0, 0, SLOT)];
    assert s5.shared.log == [Stored(SLOT)] && s5.shared.cells == [Cell(PAYABLE, false)];
    assert s5.shared.tracked == map[SLOT := 0];
  }

  lemma HandsOut()
    ensures Exec(HANDED) == Some(State(Tables(PAYABLE, PAYABLE), Goroutines(Checking(0, 0), Checking(0, 1))))
  {
    Registers();
    var steps := PAID_TWICE + [Run(0, GO)] + [Run(0, GO)];
    var s := State(Tables(PAYABLE, PAYABLE), [Done, Waiting(0, 0, SLOT)]);
    Snoc(steps, s, RangeTx(SLOT, 0));
    assert Apply(s, RangeTx(SLOT, 0)).threads == [Done, Waiting(0, 0, SLOT), Checking(0, 0)];
    Snoc(steps + [RangeTx(SLOT, 0)], Apply(s, RangeTx(SLOT, 0)), RangeTx(SLOT, 1));
    assert Apply(Apply(s, RangeTx(SLOT, 0)), RangeTx(SLOT, 1)).threads == Goroutines(Checking(0, 0), Checking(0, 1));
  }

  /** An operation of one of the two handlers. */
  lemma Acts(steps: seq<Step>, h: Shared, h': Shared, a: Pc, a': Pc, b: Pc, b': Pc, more: seq<Pc>, tid: nat,
             choice: Choice)
    requires Exec(steps) == Some(State(h, Goroutines(a, b) + more)) && 2 <= tid < 4
    requires var pc := if tid == 2 then a else b;
             && CellsOk(h, pc) && !pc.Storing? && Effect(h, pc, choice) == h'
             && (if tid == 2 then a' == Next(h, pc, choice) && b' == b else b' == Next(h, pc, choice) && a' == a)
    ensures Exec(steps + [Run(tid, choice)]) == Some(State(h', Goroutines(a', b') + more))
  {
    StolenEntry.Moves(steps, State(h, Goroutines(a, b) + more), tid, choice, State(h', Goroutines(a', b') + more));
  }

  lemma Decide()
    ensures Exec(DECIDED)
         == Some(State(Tables(PAYABLE, PAYABLE), Goroutines(Marking(0, 0, 1), Marking(0, 1, 1)) + []))
  {
    HandsOut();
    var h := Tables(PAYABLE, PAYABLE);
    var v0, v1 := Verifying(0, 0, PAYABLE), Verifying(0, 1, PAYABLE);
    assert Goroutines(Checking(0, 0), Checking(0, 1)) == Goroutines(Checking(0, 0), Checking(0, 1)) + [];
    Acts(HANDED, h, h, Checking(0, 0), v0, Checking(0, 1), Checking(0, 1), [], 2, GO);
    Acts(HANDED + [Run(2, GO)], h, h, v0, v0, Checking(0, 1), v1, [], 3, GO);
    Acts(HANDED + [Run(2, GO)] + [Run(3, GO)], h, h, v0, Marking(0, 0, 1), v1, v1, [], 2, GO);
    Acts(HANDED + [Run(2, GO)] + [Run(3, GO)] + [Run(2, GO)], h, h, Marking(0, 0, 1), Marking(0, 0, 1), v1,
         Marking(0, 1, 1), [], 3, GO);
  }

  lemma MarkFirst()
    ensures Exec(DECIDED + [Run(2, GO)] + [Run(2, GO)])
         == Some(State(Tables(FIRST, FIRST), Goroutines(Confirming(0), Marking(0, 1, 1)) + []))
  {
    Decide();
    var h, h1, h2 := Tables(PAYABLE, PAYABLE), Tables(FIRST, PAYABLE), Tables(FIRST, FIRST);
    var m := Marking(0, 1, 1);
    assert Marks(h, Marking(0, 0, 1), GO) && MarkedRow(h, Marking(0, 0, 1)) == FIRST;
    assert h.rows[0 := FIRST] == h1.rows && h1.cells[0 := Cell(FIRST, false)] == h2.cells;
    Acts(DECIDED, h, h1, Marking(0, 0, 1), Publishing(0, FIRST), m, m, [], 2, GO);
    Acts(DECIDED + [Run(2, GO)], h1, h2, Publishing(0, FIRST), Confirming(0), m, m, [], 2, GO);
  }

  lemma MarkOnce()
    ensures Exec(MARKED_ONCE) == Some(State(Tables(FIRST, FIRST), Goroutines(Done, Marking(0, 1, 1)) + []))
  {
    MarkFirst();
    var h, m := Tables(FIRST, FIRST), Marking(0, 1, 1);
    var steps := DECIDED + [Run(2, GO)] + [Run(2, GO)];
    Acts(steps, h, h, Confirming(0), Asking(0, FIRST), m, m, [], 2, GO);
    Acts(steps + [Run(2, GO)], h, h, Asking(0, FIRST), Done, m, m, [], 2, GO);
  }

  lemma Settle()
    ensures Exec(SETTLED)
         == Some(State(Tables(FIRST, FIRST), Goroutines(Done, Marking(0, 1, 1)) + [Removing(0, FIRST)]))
  {
    MarkOnce();
    var h := Tables(FIRST, FIRST);
    var g := Goroutines(Done, Marking(0, 1, 1));
    Snoc(MARKED_ONCE, State(h, g + []), RangeBlock(SLOT));
    assert g + [] + [Confirming(0)] == g + [Confirming(0)];
    var ranged := MARKED_ONCE + [RangeBlock(SLOT)];
    StolenEntry.Moves(ranged, State(h, g + [Confirming(0)]), 4, GO, State(h, g + [Asking(0, FIRST)]));
    StolenEntry.Moves(ranged + [Run(4, GO)], State(h, g + [Asking(0, FIRST)]), 4, ONE,
                      State(h, g + [Removing(0, FIRST)]));
  }

  lemma MarkAgain()
    ensures Exec(SETTLED + [Run(3, GO)])
         == Some(State(Tables(SECOND, FIRST), Goroutines(Done, Publishing(0, SECOND)) + [Removing(0, FIRST)]))
  {
    Settle();
    var h := Tables(FIRST, FIRST);
    assert Marks(h, Marking(0, 1, 1), GO) && MarkedRow(h, Marking(0, 1, 1)) == SECOND;
    assert h.rows[0 := SECOND] == Tables(SECOND, FIRST).rows;
    Acts(SETTLED, h, Tables(SECOND, FIRST), Done, Done, Marking(0, 1, 1), Publishing(0, SECOND), [Removing(0, FIRST)],
         3, GO);
  }

  lemma MarkTwice()
    ensures Exec(MARKED_TWICE) == Some(State(Tables(SECOND, SECOND), Goroutines(Done, Done) + [Removing(0, FIRST)]))
  {
    MarkAgain();
    var h1, h2 := Tables(SECOND, FIRST), Tables(SECOND, SECOND);
    var r := [Removing(0, FIRST)];
    assert h1.cells[0 := Cell(SECOND, false)] == h2.cells;
    Acts(SETTLED + [Run(3, GO)], h1, h2, Done, Done, Publishing(0, SECOND), Confirming(0), r, 3, GO);
    Acts(SETTLED + [Run(3, GO)] + [Run(3, GO)], h2, h2, Done, Done, Confirming(0), Asking(0, SECOND), r, 3, GO);
    Acts(SETTLED + [Run(3, GO)] + [Run(3, GO)] + [Run(3, GO)], h2, h2, Done, Done, Asking(0, SECOND), Done, r, 3,
         NONE_YET);
  }

  const REMOVED: Shared :=
    Tables(SECOND, SECOND).(tracked := map[], log := [Stored(SLOT), Removed(SLOT)])

  const CANCELLED: Shared := REMOVED.(cells := [Cell(SECOND, true)])

  lemma Confirm()
    ensures Exec(CONFIRMATION).Some?
    ensures Exec(CONFIRMATION).value.shared.rows == map[0 := SECOND.(status := CONFIRMED)]
  {
    MarkTwice();
    var g := Goroutines(Done, Done);
    var h := Remove(Tables(SECOND, SECOND), SLOT);
    assert h.tracked == REMOVED.tracked && h.log == REMOVED.log;
    StolenEntry.Moves(MARKED_TWICE, State(Tables(SECOND, SECOND), g + [Removing(0, FIRST)]), 4, GO,
                      State(REMOVED, g + [Cancelling(0, FIRST, 1)]));
    assert REMOVED.cells[0 := Cell(SECOND, true)] == CANCELLED.cells;
    StolenEntry.Moves(MARKED_TWICE + [Run(4, GO)], State(REMOVED, g + [Cancelling(0, FIRST, 1)]), 4, GO,
                      State(CANCELLED, g + [Finishing(FIRST, 1)]));
    Snoc(MARKED_TWICE + [Run(4, GO)] + [Run(4, GO)], State(CANCELLED, g + [Finishing(FIRST, 1)]), Run(4, GO));
    assert SECOND.(status := CONFIRMED) == CANCELLED.rows[0].(status := CONFIRMED);
  }

  /** In this run the second mark replaces the transaction, and the block's handler then confirms it: the daemon
      reported one confirmation of the first transaction and none of the second. */
  lemma UnaskedConfirmed()
    ensures Exec(SETTLED).Some? && Enabled(Exec(SETTLED).value, Run(3, GO)) && 0 in Exec(SETTLED).value.shared.rows
    ensures Exec(SETTLED).value.shared.rows[0].txId == Some(0) && Replaces(Exec(SETTLED).value, Run(3, GO), 0)
    ensures Exec(CONFIRMATION).Some? && 0 in Exec(CONFIRMATION).value.shared.rows
    ensures var r := Exec(CONFIRMATION).value.shared.rows[0];
            r.status == CONFIRMED && r.txId == Some(1) && r.confirmations == 1
  {
    Settle();
    Confirm();
    assert Marks(Tables(FIRST, FIRST), Marking(0, 1, 1), GO);
  }
}
