/** The second way out of a terminal status: a handler that stands at LoadAndDelete while the timer expires its invoice
    takes the entry of the invoice that registers the address next. */
module StolenEntry {
  import opened Domain
  import opened Interleaving
  import opened StaleHandler
  import L = Lifecycle

  const SETTLED_CHOICE: Choice := Choice(None, L.Seen(0), true)
  const MARKED_INV: Invoice := INV.(status := PENDING_MEMPOOL, actual := Some(1), txId := Some(0))
  const SECOND_INV: Invoice := INV.(id := 1)

  /** The transaction's handler marks the invoice and returns. */
  const SIGHTING: seq<Step> := DECISION + [Run(2, GO)] + [Run(2, GO)] + [Run(2, GO)] + [Run(2, GO)]

  /** With a new block the entry is handed to a second handler, which learns of enough confirmations: it stands at
      LoadAndDelete. */
  const CONFIRMATION: seq<Step> := SIGHTING + [RangeBlock(SLOT)] + [Run(3, GO)] + [Run(3, SETTLED_CHOICE)]

  /** The timer expires the invoice and its address is released. */
  const TIMEOUT: seq<Step> := CONFIRMATION + [Run(1, GO)] + [Run(1, GO)] + [Run(1, GO)] + [Run(1, GO)]

  /** A second invoice registers the address. */
  const REUSE: seq<Step> := TIMEOUT + [Insert(SECOND_INV)] + [Run(4, GO)] + [Run(4, GO)]

  /** The second handler removes the second invoice's entry. */
  const THEFT: seq<Step> := REUSE + [Run(3, GO)] + [Run(3, GO)]

  const MARKED: State :=
    State(REGISTERED.shared.(rows := map[0 := MARKED_INV]), [Done, Waiting(0, 0, SLOT), Publishing(0, MARKED_INV)])

  const PUBLISHED: State :=
    State(MARKED.shared.(cells := [Cell(MARKED_INV, false)]), [Done, Waiting(0, 0, SLOT), Confirming(0)])

  const ASKED: State := PUBLISHED.(threads := [Done, Waiting(0, 0, SLOT), Asking(0, MARKED_INV)])

  const SIGHTED: State := PUBLISHED.(threads := [Done, Waiting(0, 0, SLOT), Done])

  const RANGED: State := PUBLISHED.(threads := [Done, Waiting(0, 0, SLOT), Done, Confirming(0)])

  const ASKING: State := PUBLISHED.(threads := [Done, Waiting(0, 0, SLOT), Done, Asking(0, MARKED_INV)])

  const REMOVABLE: State := PUBLISHED.(threads := [Done, Waiting(0, 0, SLOT), Done, Removing(0, MARKED_INV)])

  const EXPIRING: State := REMOVABLE.(threads := [Done, Expiring(0, SLOT, Some(0)), Done, Removing(0, MARKED_INV)])

  const CLOSING: State :=
    State(REMOVABLE.shared.(tracked := map[], log := [Stored(SLOT), Removed(SLOT)]),
          [Done, Closing(0, SLOT, 1, Some(0)), Done, Removing(0, MARKED_INV)])

  const TIMED_OUT: State :=
    State(PUBLISHED.shared.(rows := map[0 := MARKED_INV.(status := EXPIRED)], tracked := map[],
                            log := [Stored(SLOT), Removed(SLOT)], terminals := [Terminal(0, SLOT, EXPIRED, 1)]),
          [Done, Releasing(SLOT, 1), Done, Removing(0, MARKED_INV)])

  const FREED_AGAIN: State :=
    State(TIMED_OUT.shared.(released := [1]), [Done, Done, Done, Removing(0, MARKED_INV)])

  const INSERTED: State :=
    State(FREED_AGAIN.shared.(rows := map[0 := MARKED_INV.(status := EXPIRED), 1 := SECOND_INV]),
          [Done, Done, Done, Removing(0, MARKED_INV), Registering(SECOND_INV)])

  const REUSED: State :=
    State(INSERTED.shared.(cells := [Cell(MARKED_INV, false), Cell(SECOND_INV, false)], tracked := map[SLOT := 1],
                           log := [Stored(SLOT), Removed(SLOT), Stored(SLOT)]),
          [Done, Done, Done, Removing(0, MARKED_INV), Done, Waiting(1, 1, SLOT)])

  const STORING: State := INSERTED.(threads := [Done, Done, Done, Removing(0, MARKED_INV), Storing(SECOND_INV)])

  const CANCELLING: State :=
    State(REUSED.shared.(tracked := map[], log := [Stored(SLOT), Removed(SLOT), Stored(SLOT), Removed(SLOT)]),
          [Done, Done, Done, Cancelling(0, MARKED_INV, 3), Done, Waiting(1, 1, SLOT)])

  const STOLEN: State :=
    State(REUSED.shared.(cells := [Cell(MARKED_INV, true), Cell(SECOND_INV, false)], tracked := map[],
                         log := [Stored(SLOT), Removed(SLOT), Stored(SLOT), Removed(SLOT)]),
          [Done, Done, Done, Finishing(MARKED_INV, 3), Done, Waiting(1, 1, SLOT)])

  /** One operation of a goroutine that starts no other. */
  lemma Moves(steps: seq<Step>, s: State, tid: nat, choice: Choice, s': State)
    requires Exec(steps) == Some(s) && tid < |s.threads| && CellsOk(s.shared, s.threads[tid])
    requires !s.threads[tid].Storing? && Effect(s.shared, s.threads[tid], choice) == s'.shared
    requires s'.threads == s.threads[tid := Next(s.shared, s.threads[tid], choice)]
    ensures Exec(steps + [Run(tid, choice)]) == Some(s')
  {
    assert s.threads[tid := Next(s.shared, s.threads[tid], choice)] + [] == s'.threads;
    Snoc(steps, s, Run(tid, choice));
  }

  lemma MarksFirst()
    ensures Exec(DECISION + [Run(2, GO)]) == Some(MARKED)
  {
    Decides();
    assert Marks(DECIDED.shared, Marking(0, 0, 1), GO) && MarkedRow(DECIDED.shared, Marking(0, 0, 1)) == MARKED_INV;
    assert DECIDED.shared.rows[0 := MARKED_INV] == MARKED.shared.rows;
    Moves(DECISION, DECIDED, 2, GO, MARKED);
  }

  lemma Publishes()
    ensures Exec(DECISION + [Run(2, GO)] + [Run(2, GO)]) == Some(PUBLISHED)
  {
    MarksFirst();
    assert MARKED.shared.cells[0 := Cell(MARKED_INV, false)] == PUBLISHED.shared.cells;
    Moves(DECISION + [Run(2, GO)], MARKED, 2, GO, PUBLISHED);
  }

  lemma Returns()
    ensures Exec(SIGHTING) == Some(SIGHTED)
  {
    Publishes();
    Moves(DECISION + [Run(2, GO)] + [Run(2, GO)], PUBLISHED, 2, GO, ASKED);
    Moves(DECISION + [Run(2, GO)] + [Run(2, GO)] + [Run(2, GO)], ASKED, 2, GO, SIGHTED);
  }

  lemma Ranges()
    ensures Exec(SIGHTING + [RangeBlock(SLOT)]) == Some(RANGED)
  {
    Returns();
    Snoc(SIGHTING, SIGHTED, RangeBlock(SLOT));
    assert SIGHTED.threads + [Confirming(0)] == RANGED.threads;
  }

  lemma Confirms()
    ensures Exec(CONFIRMATION) == Some(REMOVABLE)
  {
    Ranges();
    Moves(SIGHTING + [RangeBlock(SLOT)], RANGED, 3, GO, ASKING);
    Moves(SIGHTING + [RangeBlock(SLOT)] + [Run(3, GO)], ASKING, 3, SETTLED_CHOICE, REMOVABLE);
  }

  lemma TimerFires()
    ensures Exec(CONFIRMATION + [Run(1, GO)]) == Some(EXPIRING)
  {
    Confirms();
    Moves(CONFIRMATION, REMOVABLE, 1, GO, EXPIRING);
  }

  lemma TimerRemoves()
    ensures Exec(CONFIRMATION + [Run(1, GO)] + [Run(1, GO)]) == Some(CLOSING)
  {
    TimerFires();
    var h := Remove(EXPIRING.shared, SLOT);
    assert h.tracked == CLOSING.shared.tracked && h.log == CLOSING.shared.log;
    Moves(CONFIRMATION + [Run(1, GO)], EXPIRING, 1, GO, CLOSING);
  }

  lemma TimerExpires()
    ensures Exec(CONFIRMATION + [Run(1, GO)] + [Run(1, GO)] + [Run(1, GO)]) == Some(TIMED_OUT)
  {
    TimerRemoves();
    var h := Terminate(CLOSING.shared, 0, 1, EXPIRED);
    assert h.rows == TIMED_OUT.shared.rows && h.terminals == TIMED_OUT.shared.terminals;
    Moves(CONFIRMATION + [Run(1, GO)] + [Run(1, GO)], CLOSING, 1, GO, TIMED_OUT);
  }

  lemma Releases()
    ensures Exec(TIMEOUT) == Some(FREED_AGAIN)
  {
    TimerExpires();
    assert TIMED_OUT.shared.released + [1] == FREED_AGAIN.shared.released;
    Moves(CONFIRMATION + [Run(1, GO)] + [Run(1, GO)] + [Run(1, GO)], TIMED_OUT, 1, GO, FREED_AGAIN);
  }

  lemma Inserts()
    ensures Exec(TIMEOUT + [Insert(SECOND_INV)]) == Some(INSERTED)
  {
    Releases();
    Snoc(TIMEOUT, FREED_AGAIN, Insert(SECOND_INV));
    assert FREED_AGAIN.shared.rows[1 := SECOND_INV] == INSERTED.shared.rows;
    assert FREED_AGAIN.threads + [Registering(SECOND_INV)] == INSERTED.threads;
  }

  lemma Registers()
    ensures Exec(TIMEOUT + [Insert(SECOND_INV)] + [Run(4, GO)]) == Some(STORING)
  {
    Inserts();
    Moves(TIMEOUT + [Insert(SECOND_INV)], INSERTED, 4, GO, STORING);
  }

  lemma Stores()
    ensures Exec(REUSE) == Some(REUSED)
  {
    Registers();
    Snoc(TIMEOUT + [Insert(SECOND_INV)] + [Run(4, GO)], STORING, Run(4, GO));
    var h := Effect(STORING.shared, Storing(SECOND_INV), GO);
    assert h.cells == REUSED.shared.cells && h.log == REUSED.shared.log && h.tracked == REUSED.shared.tracked;
    assert STORING.threads[4 := Done] + [Waiting(1, 1, SLOT)] == REUSED.threads;
  }

  lemma Steals()
    ensures Exec(REUSE + [Run(3, GO)]) == Some(CANCELLING)
  {
    Stores();
    var h := Remove(REUSED.shared, SLOT);
    assert h.tracked == CANCELLING.shared.tracked && h.log == CANCELLING.shared.log;
    Moves(REUSE, REUSED, 3, GO, CANCELLING);
  }

  lemma Cancels()
    ensures Exec(THEFT) == Some(STOLEN)
  {
    Steals();
    assert CANCELLING.shared.cells[0 := Cell(MARKED_INV, true)] == STOLEN.shared.cells;
    Moves(REUSE + [Run(3, GO)], CANCELLING, 3, GO, STOLEN);
  }

  /** After this run the first invoice is expired and the second is pending; the next operation confirms the first, and
      the second stays pending but is tracked no more. */
  lemma ExpiredIsConfirmed()
    ensures Exec(THEFT).Some? && 0 in Exec(THEFT).value.shared.rows
            && Exec(THEFT).value.shared.rows[0].status == EXPIRED
    ensures var r := Exec(THEFT + [Run(3, GO)]);
            && r.Some? && 0 in r.value.shared.rows && 1 in r.value.shared.rows
            && r.value.shared.rows[0].status == CONFIRMED
            && r.value.shared.rows[1].status == PENDING && SlotOf(r.value.shared.rows[1]) !in r.value.shared.tracked
  {
    Cancels();
    Snoc(THEFT, STOLEN, Run(3, GO));
  }
}
