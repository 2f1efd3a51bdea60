/** Restart recovery: what loadPersistedPendingInvoices leaves in the memory of each processor. */
module Recovery {
  import opened Domain
  import opened Lifecycle
  import opened Invariants
  import opened Settlement
  import Frames

  /** rows[i] is the first row that the processor of b supports with that address. */
  ghost predicate FirstAt(b: BaseCoin, rows: seq<Invoice>, i: nat, a: Address) {
    && i < |rows| && Home(rows[i].coin) == Some(b) && rows[i].address == a
    && forall j :: 0 <= j < i && Home(rows[j].coin) == Some(b) ==> rows[j].address != a
  }

  /** Of several rows with one address the first is kept. */
  lemma {:induction false} LoadKeepsFirst(b: BaseCoin, rows: seq<Invoice>, a: Address)
    requires a in Load(b, rows).pending
    ensures exists i: nat :: FirstAt(b, rows, i, a) && Load(b, rows).pending[a] == rows[i]
    decreases |rows|
  {
    var n := |rows| - 1;
    var init := rows[..n];
    if a in Load(b, init).pending {
      LoadKeepsFirst(b, init, a);
      var i: nat :| FirstAt(b, init, i, a) && Load(b, init).pending[a] == init[i];
      assert FirstAt(b, rows, i, a);
    } else {
      forall j | 0 <= j < n && Home(rows[j].coin) == Some(b)
        ensures rows[j].address != a
      {
        Frames.LoadTracks(b, init, rows[j].address);
        assert init[j].address == rows[j].address && Home(init[j].coin) == Some(b);
      }
      assert FirstAt(b, rows, n, a);
    }
  }

  /** Every timer is armed and belongs to a tracked entry. */
  lemma {:induction false} LoadTimers(b: BaseCoin, rows: seq<Invoice>, id: InvoiceId)
    requires id in Load(b, rows).timers
    ensures exists a :: a in Load(b, rows).pending && Load(b, rows).pending[a].id == id
              && Load(b, rows).timers[id] == Timer(a, false)
    decreases |rows|
  {
    if rows != [] {
      var n := |rows| - 1;
      if id in Load(b, rows[..n]).timers && !(Home(rows[n].coin) == Some(b) && rows[n].id == id
          && rows[n].address !in Load(b, rows[..n]).pending) {
        LoadTimers(b, rows[..n], id);
        var a :| a in Load(b, rows[..n]).pending && Load(b, rows[..n]).pending[a].id == id
                 && Load(b, rows[..n]).timers[id] == Timer(a, false);
        assert Load(b, rows).pending[a].id == id && Load(b, rows).timers[id] == Timer(a, false);
      } else {
        assert Load(b, rows).pending[rows[n].address].id == id;
      }
    }
  }

  lemma TimerIsListed(b: BaseCoin, rows: seq<Invoice>, id: InvoiceId)
    requires id in Load(b, rows).timers
    ensures exists i: nat :: i < |rows| && rows[i].id == id
  {
    LoadTimers(b, rows, id);
    var a :| a in Load(b, rows).pending && Load(b, rows).pending[a].id == id;
    LoadKeepsFirst(b, rows, a);
    var i: nat :| FirstAt(b, rows, i, a) && Load(b, rows).pending[a] == rows[i];
    assert rows[i].id == id;
  }

  /** No row reaches handleInvoice with a timer of its own already running. */
  lemma FirstTimer(b: BaseCoin, rows: seq<Invoice>, n: nat)
    requires n < |rows| && forall i, j :: 0 <= i < j < |rows| ==> rows[i].id != rows[j].id
    ensures rows[n].id !in Load(b, rows[..n]).timers
  {
    if rows[n].id in Load(b, rows[..n]).timers {
      TimerIsListed(b, rows[..n], rows[n].id);
      assert false;
    }
  }

  function Max(x: int, y: int): int {
    if x < y then y else x
  }

  /** The row as it is after the deadlines were moved. */
  function Recovered(r: Invoice, now: int): Invoice {
    r.(expiresAt := Max(r.expiresAt, now + 300))
  }

  lemma ListedRow(d: Db, now: int, rows: seq<Invoice>, b: BaseCoin, id: InvoiceId) returns (i: nat)
    requires RowsOk(d) && Frames.Lists(Shift(d, now), rows) && PendingIn(d, b, id)
    ensures i < |rows| && rows[i] == Recovered(d.invoices[id], now) && rows[i].id == id && Home(rows[i].coin) == Some(b)
  {
    assert RowOk(d, id);
    assert IsPending(Shift(d, now).invoices[id].status);
    i :| 0 <= i < |rows| && rows[i] == Shift(d, now).invoices[id];
  }

  lemma TrackedIff(d: Db, now: int, rows: seq<Invoice>, b: BaseCoin, a: Address)
    requires RowsOk(d) && Frames.Lists(Shift(d, now), rows)
    ensures a in Load(b, rows).pending <==> exists id :: PendingIn(d, b, id) && d.invoices[id].address == a
  {
    Frames.LoadTracks(b, rows, a);
    if id :| PendingIn(d, b, id) && d.invoices[id].address == a {
      var i := ListedRow(d, now, rows, b, id);
      assert rows[i].address == a;
    }
    if i: nat :| i < |rows| && rows[i].address == a && Home(rows[i].coin) == Some(b) {
      assert rows[i].id in d.invoices && PendingIn(d, b, rows[i].id) && d.invoices[rows[i].id].address == a;
    }
  }

  /** The entry at a is the pending row with its deadline moved, and its timer is armed. */
  ghost predicate EntryIs(d: Db, now: int, b: BaseCoin, m: Memory, a: Address)
    requires a in m.pending
  {
    var e := m.pending[a];
    && e.address == a && PendingIn(d, b, e.id) && e == Recovered(d.invoices[e.id], now)
    && e.id in m.timers && m.timers[e.id] == Timer(a, false)
  }

  /** An entry that agrees with the shifted table is the original row with its deadline moved. */
  lemma ShiftedEntry(d: Db, now: int, b: BaseCoin, m: Memory, a: Address)
    requires a in m.pending && EntryOk(Shift(d, now), b, m, a)
    requires Armed(m, m.pending[a].id) && TimerOk(Shift(d, now), b, m, m.pending[a].id)
    ensures EntryIs(d, now, b, m, a)
  {
  }

  lemma LoadedEntry(d: Db, rows: seq<Invoice>, b: BaseCoin, a: Address)
    requires RowsOk(d) && Frames.PendingRows(d, rows) && a in Load(b, rows).pending
    ensures var m := Load(b, rows);
            EntryOk(d, b, m, a) && Armed(m, m.pending[a].id) && TimerOk(d, b, m, m.pending[a].id)
  {
    Frames.LoadKeepsMem(d, b, rows);
    assert Armed(Load(b, rows), Load(b, rows).pending[a].id);
  }

  lemma EntryRecovered(d: Db, now: int, rows: seq<Invoice>, b: BaseCoin, a: Address)
    requires RowsOk(d) && Frames.Lists(Shift(d, now), rows) && a in Load(b, rows).pending
    ensures EntryIs(d, now, b, Load(b, rows), a)
  {
    Frames.ShiftKeepsRows(d, now);
    LoadedEntry(Shift(d, now), rows, b, a);
    ShiftedEntry(d, now, b, Load(b, rows), a);
  }

  lemma TrackedExactly(d: Db, now: int, rows: seq<Invoice>, b: BaseCoin)
    requires RowsOk(d) && Frames.Lists(Shift(d, now), rows)
    ensures AllTracked(d, b, Load(b, rows)) <==> Exclusive(d, b)
  {
    var m := Load(b, rows);
    if Exclusive(d, b) {
      forall id | PendingIn(d, b, id)
        ensures TrackedAs(d, m, id)
      {
        var a := d.invoices[id].address;
        TrackedIff(d, now, rows, b, a);
        EntryRecovered(d, now, rows, b, a);
      }
    }
    if AllTracked(d, b, m) {
      forall i, j | PendingIn(d, b, i) && PendingIn(d, b, j) && i != j
        ensures d.invoices[i].address != d.invoices[j].address
      {
        assert TrackedAs(d, m, i) && TrackedAs(d, m, j);
      }
    }
  }

  /** Restart recovery, whatever order the rows come in: an address is tracked by the processor of b exactly if some
      pending invoice of a coin it supports uses it; every entry is such an invoice with its deadline moved to at least
      five minutes from now and its timer armed, and there are no other timers; every such invoice is tracked exactly if
      no two of them share an address. */
  lemma RestartRecovers(d: Db, now: int, rows: seq<Invoice>, b: BaseCoin)
    requires RowsOk(d) && Frames.Lists(Shift(d, now), rows)
    ensures forall a :: a in Load(b, rows).pending <==> exists id :: PendingIn(d, b, id) && d.invoices[id].address == a
    ensures forall a :: a in Load(b, rows).pending ==> EntryIs(d, now, b, Load(b, rows), a)
    ensures forall id :: id in Load(b, rows).timers ==> exists a ::
          a in Load(b, rows).pending && Load(b, rows).pending[a].id == id
    ensures AllTracked(d, b, Load(b, rows)) <==> Exclusive(d, b)
  {
    forall a
      ensures a in Load(b, rows).pending <==> exists id :: PendingIn(d, b, id) && d.invoices[id].address == a
      ensures a in Load(b, rows).pending ==> EntryIs(d, now, b, Load(b, rows), a)
    {
      TrackedIff(d, now, rows, b, a);
      if a in Load(b, rows).pending {
        EntryRecovered(d, now, rows, b, a);
      }
    }
    forall id | id in Load(b, rows).timers
      ensures exists a :: a in Load(b, rows).pending && Load(b, rows).pending[a].id == id
    {
      LoadTimers(b, rows, id);
    }
    TrackedExactly(d, now, rows, b);
  }

  lemma {:induction false} EntryOrderIrrelevant(d: Db, now: int, rows: seq<Invoice>, rows': seq<Invoice>, b: BaseCoin,
                                                a: Address)
    requires RowsOk(d) && Exclusive(d, b)
    requires Frames.Lists(Shift(d, now), rows) && Frames.Lists(Shift(d, now), rows')
    requires a in Load(b, rows).pending
    ensures a in Load(b, rows').pending && Load(b, rows').pending[a] == Load(b, rows).pending[a]
  {
    TrackedIff(d, now, rows, b, a);
    TrackedIff(d, now, rows', b, a);
    EntryRecovered(d, now, rows, b, a);
    EntryRecovered(d, now, rows', b, a);
  }

  lemma {:induction false} TimerOrderIrrelevant(d: Db, now: int, rows: seq<Invoice>, rows': seq<Invoice>, b: BaseCoin,
                                                id: InvoiceId)
    requires RowsOk(d) && Exclusive(d, b)
    requires Frames.Lists(Shift(d, now), rows) && Frames.Lists(Shift(d, now), rows')
    requires id in Load(b, rows).timers
    ensures id in Load(b, rows').timers && Load(b, rows').timers[id] == Load(b, rows).timers[id]
  {
    LoadTimers(b, rows, id);
    var a :| a in Load(b, rows).pending && Load(b, rows).pending[a].id == id;
    EntryOrderIrrelevant(d, now, rows, rows', b, a);
    EntryRecovered(d, now, rows, b, a);
    EntryRecovered(d, now, rows', b, a);
  }

  ghost predicate Included(m: Memory, m': Memory) {
    && (forall a :: a in m.pending ==> a in m'.pending && m'.pending[a] == m.pending[a])
    && (forall id :: id in m.timers ==> id in m'.timers && m'.timers[id] == m.timers[id])
    && m.releases == m'.releases
  }

  lemma {:induction false} LoadIncluded(d: Db, now: int, rows: seq<Invoice>, rows': seq<Invoice>, b: BaseCoin)
    requires RowsOk(d) && Exclusive(d, b)
    requires Frames.Lists(Shift(d, now), rows) && Frames.Lists(Shift(d, now), rows')
    ensures Included(Load(b, rows), Load(b, rows'))
  {
    forall a | a in Load(b, rows).pending
      ensures a in Load(b, rows').pending && Load(b, rows').pending[a] == Load(b, rows).pending[a]
    {
      EntryOrderIrrelevant(d, now, rows, rows', b, a);
    }
    forall id | id in Load(b, rows).timers
      ensures id in Load(b, rows').timers && Load(b, rows').timers[id] == Load(b, rows).timers[id]
    {
      TimerOrderIrrelevant(d, now, rows, rows', b, id);
    }
    Frames.ShiftKeepsRows(d, now);
    Frames.LoadKeepsMem(Shift(d, now), b, rows);
    Frames.LoadKeepsMem(Shift(d, now), b, rows');
  }

  /** With distinct addresses the order of the rows does not matter. */
  lemma {:induction false} RecoveryOrderIrrelevant(d: Db, now: int, rows: seq<Invoice>, rows': seq<Invoice>,
                                                   b: BaseCoin)
    requires RowsOk(d) && Exclusive(d, b)
    requires Frames.Lists(Shift(d, now), rows) && Frames.Lists(Shift(d, now), rows')
    ensures Load(b, rows) == Load(b, rows')
  {
    LoadIncluded(d, now, rows, rows', b);
    LoadIncluded(d, now, rows', rows, b);
    var m, m' := Load(b, rows), Load(b, rows');
    assert m.pending == m'.pending && m.timers == m'.timers;
  }

  /** No invoice is tracked by two processors. */
  lemma OneProcessorEach(d: Db, now: int, rows: seq<Invoice>, b: BaseCoin, c: BaseCoin, a: Address, a': Address)
    requires RowsOk(d) && Frames.Lists(Shift(d, now), rows)
    requires a in Load(b, rows).pending && a' in Load(c, rows).pending
    requires Load(b, rows).pending[a].id == Load(c, rows).pending[a'].id
    ensures b == c && a == a'
  {
    EntryRecovered(d, now, rows, b, a);
    EntryRecovered(d, now, rows, c, a');
  }
}
