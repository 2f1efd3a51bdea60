/** The atomic handlers are the uninterrupted runs of their goroutines: started in states that agree, a goroutine that
    runs its map, pointer and SQL operations without interruption leaves the same rows and entries as the handler in one
    step. */
module Refinement {
  import opened Domain
  import opened Confirmations
  import opened Interleaving
  import L = Lifecycle

  // ----- Uninterrupted goroutines -----

  /** One goroutine taking one operation per choice. */
  function Alone(h: Shared, pc: Pc, choices: seq<Choice>): Option<(Shared, Pc)>
    decreases |choices|
  {
    if choices == [] then Some((h, pc))
    else if !CellsOk(h, pc) then None
    else Alone(Effect(h, pc, choices[0]), Next(h, pc, choices[0]), choices[1..])
  }

  function Runs(tid: nat, choices: seq<Choice>): seq<Step> {
    seq(|choices|, i requires 0 <= i < |choices| => Run(tid, choices[i]))
  }

  lemma OneRun(steps: seq<Step>, s: State, tid: nat, choice: Choice)
    requires Exec(steps) == Some(s) && tid < |s.threads| && CellsOk(s.shared, s.threads[tid])
    ensures Exec(steps + [Run(tid, choice)]) == Some(Apply(s, Run(tid, choice)))
    ensures var s' := Apply(s, Run(tid, choice));
            && s'.shared == Effect(s.shared, s.threads[tid], choice)
            && |s'.threads| >= |s.threads| && s'.threads[tid] == Next(s.shared, s.threads[tid], choice)
            && forall t :: 0 <= t < |s.threads| && t != tid ==> s'.threads[t] == s.threads[t]
  {
    assert (steps + [Run(tid, choice)])[..|steps|] == steps;
  }

  /** The other goroutines stand where they stood. */
  predicate OthersStay(s: State, s': State, tid: nat) {
    |s.threads| <= |s'.threads| && forall t :: 0 <= t < |s.threads| && t != tid ==> s'.threads[t] == s.threads[t]
  }

  /** It is a run of the machine in which no other goroutine moves. */
  lemma {:induction false} AloneIsRun(steps: seq<Step>, s: State, tid: nat, choices: seq<Choice>)
    requires Exec(steps) == Some(s) && tid < |s.threads| && Alone(s.shared, s.threads[tid], choices).Some?
    ensures var s' := Exec(steps + Runs(tid, choices));
            && s'.Some? && OthersStay(s, s'.value, tid)
            && Alone(s.shared, s.threads[tid], choices) == Some((s'.value.shared, s'.value.threads[tid]))
    decreases |choices|
  {
    if choices == [] {
      assert steps + Runs(tid, choices) == steps;
    } else {
      var step := Run(tid, choices[0]);
      OneRun(steps, s, tid, choices[0]);
      AloneIsRun(steps + [step], Apply(s, step), tid, choices[1..]);
      assert steps + [step] + Runs(tid, choices[1..]) == steps + Runs(tid, choices);
    }
  }

  lemma {:induction false} AloneConcat(h: Shared, pc: Pc, first: seq<Choice>, second: seq<Choice>)
    requires Alone(h, pc, first).Some?
    ensures Alone(h, pc, first + second) == Alone(Alone(h, pc, first).value.0, Alone(h, pc, first).value.1, second)
    decreases |first|
  {
    if first == [] {
      assert first + second == second;
    } else {
      assert (first + second)[1..] == first[1..] + second;
      AloneConcat(Effect(h, pc, first[0]), Next(h, pc, first[0]), first[1..], second);
    }
  }

  // ----- Agreement -----

  /** The entries of the processor of b. */
  ghost predicate EntriesAgree(h: Shared, b: BaseCoin, pending: map<Address, Invoice>) {
    forall a :: (a in pending <==> At(b, a) in h.tracked)
             && (a in pending ==> h.tracked[At(b, a)] < |h.cells| && h.cells[h.tracked[At(b, a)]].inv == pending[a])
  }

  function At(b: BaseCoin, a: Address): Slot {
    Slot(Some(b), a)
  }

  ghost predicate Agrees(h: Shared, b: BaseCoin, l: L.Local) {
    TablesOk(h) && l.db.invoices == h.rows && EntriesAgree(h, b, l.mem.pending)
  }

  /** The goroutine is done but for a release it may have spawned, and what it leaves agrees with the handler. */
  ghost predicate Simulates(r: Option<(Shared, Pc)>, b: BaseCoin, before: L.Local, after: L.Local) {
    && r.Some? && Agrees(r.value.0, b, after)
    && (r.value.1.Done? <==> after.mem.releases == before.mem.releases)
    && (r.value.1.Releasing? ==>
          && r.value.1.slot.home == Some(b)
          && after.mem.releases == before.mem.releases + multiset{r.value.1.slot.address})
    && (r.value.1.Done? || r.value.1.Releasing?)
  }

  /** Cancelling the entry's context and cancelling its timer go together. */
  ghost predicate CancelsAgree(h: Shared, h': Shared, c: CellId, before: L.Local, after: L.Local, id: InvoiceId) {
    && c < |h.cells| && c < |h'.cells|
    && (if h'.cells[c].cancelled == h.cells[c].cancelled && after.mem.timers == before.mem.timers then true
        else h'.cells[c].cancelled && after.mem.timers == L.Cancel(before.mem.timers, id))
  }

  const OK: Choice := Choice(None, L.Unreachable, true)

  function Sql(ok: bool): Choice {
    Choice(None, L.Unreachable, ok)
  }

  lemma RemoveTracked(h: Shared, b: BaseCoin, l: L.Local, a: Address)
    requires Agrees(h, b, l)
    ensures TablesOk(Remove(h, At(b, a))) && EntriesAgree(Remove(h, At(b, a)), b, l.mem.pending - {a})
  {
  }

  lemma AloneOne(h: Shared, pc: Pc, choice: Choice)
    requires CellsOk(h, pc)
    ensures Alone(h, pc, [choice]) == Some((Effect(h, pc, choice), Next(h, pc, choice)))
  {
    assert [choice][1..] == [];
    assert Alone(Effect(h, pc, choice), Next(h, pc, choice), []) == Some((Effect(h, pc, choice), Next(h, pc, choice)));
  }

  /** First one operation, then the rest. */
  lemma AloneThen(h: Shared, pc: Pc, choice: Choice, rest: seq<Choice>)
    requires CellsOk(h, pc)
    ensures Alone(h, pc, [choice] + rest) == Alone(Effect(h, pc, choice), Next(h, pc, choice), rest)
  {
    assert ([choice] + rest)[1..] == rest;
  }

  lemma ClosingSimulated(h: Shared, b: BaseCoin, before: L.Local, l: L.Local, pc: Pc, sql: bool)
    requires pc.Closing? && CellsOk(h, pc) && pc.slot.home == Some(b) && pc.slot.address in before.mem.pending
    requires Agrees(h, b, l)
    requires l == before.(mem := before.mem.(pending := before.mem.pending - {pc.slot.address}))
    ensures var works := sql && (pc.ctx.Some? ==> !h.cells[pc.ctx.value].cancelled);
            Simulates(Alone(h, pc, [Sql(sql)]), b, before, L.Expire(before, pc.id, pc.slot.address, works))
  {
    AloneOne(h, pc, Sql(sql));
    if Terminates(h, pc, Sql(sql)) {
      TerminateAgrees(h, b, l, pc.id, pc.token, EXPIRED);
    }
  }

  /** expireInvoice, called from a timer or from the rejection branch. */
  lemma ExpireSimulated(h: Shared, b: BaseCoin, l: L.Local, id: InvoiceId, a: Address, ctx: Option<CellId>, sql: bool)
    requires Agrees(h, b, l) && CellsOk(h, Expiring(id, At(b, a), ctx))
    ensures var works := sql && (ctx.Some? ==> !h.cells[ctx.value].cancelled);
            Simulates(Alone(h, Expiring(id, At(b, a), ctx), [OK] + [Sql(sql)]), b, l, L.Expire(l, id, a, works))
  {
    AloneThen(h, Expiring(id, At(b, a), ctx), OK, [Sql(sql)]);
    if a in l.mem.pending {
      RemoveTracked(h, b, l, a);
      var l1 := l.(mem := l.mem.(pending := l.mem.pending - {a}));
      ClosingSimulated(Remove(h, At(b, a)), b, l, l1, Closing(id, At(b, a), |h.log|, ctx), sql);
    } else {
      AloneOne(h, Done, Sql(sql));
    }
  }

  /** The UPDATE of the machine works exactly if the statement does. */
  lemma MarksAgrees(h: Shared, b: BaseCoin, l: L.Local, a: Address, tx: TxId, amount: nat, sql: bool)
    requires Agrees(h, b, l) && a in l.mem.pending
    ensures h.cells[h.tracked[At(b, a)]].inv.id == l.mem.pending[a].id
    ensures Marks(h, Marking(h.tracked[At(b, a)], tx, amount), Sql(sql))
       <==> sql && L.SetMempool(l.db, l.mem.pending[a].id, amount, tx).Some?
  {
    var id := l.mem.pending[a].id;
    assert L.TxTaken(l.db, id, tx) == TxTaken(h, id, tx);
  }

  function MarkChoices(h: Shared, pc: Pc, sql: bool): seq<Choice>
    requires pc.Marking? && CellsOk(h, pc)
  {
    if Marks(h, pc, Sql(sql)) then [Sql(sql)] + [OK] else [Sql(sql)]
  }

  /** confirmPENDING_MEMPOOL: the UPDATE and, if it worked, the pointer store. */
  lemma MarkSimulated(h: Shared, b: BaseCoin, l: L.Local, a: Address, tx: TxId, amount: nat, sql: bool)
    requires Agrees(h, b, l) && a in l.mem.pending
    ensures var c := h.tracked[At(b, a)];
            var pc := Marking(c, tx, amount);
            var r := Alone(h, pc, MarkChoices(h, pc, sql));
            && r.Some? && r.value.1 == Confirming(c)
            && r.value.0.tracked == h.tracked
            && Agrees(r.value.0, b, L.MarkMempool(l, a, amount, tx, sql))
            && |r.value.0.cells| == |h.cells| && r.value.0.cells[c].cancelled == h.cells[c].cancelled
  {
    var c := h.tracked[At(b, a)];
    var pc := Marking(c, tx, amount);
    MarksAgrees(h, b, l, a, tx, amount, sql);
    if Marks(h, pc, Sql(sql)) {
      var h1 := Effect(h, pc, Sql(sql));
      AloneThen(h, pc, Sql(sql), [OK]);
      AloneOne(h1, Publishing(c, MarkedRow(h, pc)), OK);
      MarkedAgrees(h, b, l, a, MarkedRow(h, pc), Effect(h1, Publishing(c, MarkedRow(h, pc)), OK));
    } else {
      AloneOne(h, pc, Sql(sql));
    }
  }

  lemma MarkedAgrees(h: Shared, b: BaseCoin, l: L.Local, a: Address, row: Invoice, h': Shared)
    requires Agrees(h, b, l) && a in l.mem.pending
    requires row.id in h.rows && row.id == h.cells[h.tracked[At(b, a)]].inv.id
    requires row.address == h.rows[row.id].address && row.coin == h.rows[row.id].coin
    requires var c := h.tracked[At(b, a)];
             h' == h.(rows := h.rows[row.id := row], cells := h.cells[c := h.cells[c].(inv := row)])
    ensures TablesOk(h') && EntriesAgree(h', b, l.mem.pending[a := row])
  {
    assert Known(h, h.cells[h.tracked[At(b, a)]].inv);
    assert Anchored(h, row.id, At(b, a));
    var h1 := h.(rows := h.rows[row.id := row]);
    RowAgrees(h, row);
    PointerAgrees(h1, b, l.mem.pending, a, row);
  }

  /** An UPDATE that keeps address and coin leaves everything about the same invoices. */
  lemma RowAgrees(h: Shared, row: Invoice)
    requires TablesOk(h) && Known(h, row)
    ensures TablesOk(h.(rows := h.rows[row.id := row])) && Known(h.(rows := h.rows[row.id := row]), row)
  {
    var h1 := h.(rows := h.rows[row.id := row]);
    forall c | 0 <= c < |h1.cells|
      ensures Known(h1, h1.cells[c].inv)
    {
      assert Known(h, h.cells[c].inv);
    }
  }

  /** A pointer store changes one entry. */
  lemma PointerAgrees(h: Shared, b: BaseCoin, pending: map<Address, Invoice>, a: Address, row: Invoice)
    requires TablesOk(h) && EntriesAgree(h, b, pending) && a in pending && Known(h, row) && SlotOf(row) == At(b, a)
    ensures var c := h.tracked[At(b, a)];
            var h1 := h.(cells := h.cells[c := h.cells[c].(inv := row)]);
            TablesOk(h1) && EntriesAgree(h1, b, pending[a := row])
  {
    var c := h.tracked[At(b, a)];
    var h1 := h.(cells := h.cells[c := h.cells[c].(inv := row)]);
    forall k | 0 <= k < |h1.cells|
      ensures Known(h1, h1.cells[k].inv) && SlotOf(h1.cells[k].inv) == SlotOf(h.cells[k].inv)
    {
      assert Known(h, h.cells[k].inv);
    }
    forall x | x in pending && x != a
      ensures h.tracked[At(b, x)] != c
    {
      assert SlotOf(h.cells[h.tracked[At(b, x)]].inv) == At(b, x);
    }
  }

  function Told(reply: L.Reply): Choice {
    Choice(None, reply, true)
  }

  /** The state between cancelTimeoutFunc and ConfirmInvoiceById. */
  function Cancelled(h: Shared, c: CellId, inv: Invoice): Shared
    requires c < |h.cells|
  {
    Effect(Remove(h, SlotOf(inv)), Cancelling(c, inv, |h.log|), OK)
  }

  lemma CancelKeepsEntries(h: Shared, b: BaseCoin, pending: map<Address, Invoice>, c: CellId)
    requires TablesOk(h) && EntriesAgree(h, b, pending) && c < |h.cells|
    ensures var h' := h.(cells := h.cells[c := h.cells[c].(cancelled := true)]);
            TablesOk(h') && EntriesAgree(h', b, pending)
  {
    var h' := h.(cells := h.cells[c := h.cells[c].(cancelled := true)]);
    forall k | 0 <= k < |h'.cells|
      ensures h'.cells[k].inv == h.cells[k].inv
    {
    }
  }

  lemma CancelledAgrees(h: Shared, b: BaseCoin, l: L.Local, c: CellId, inv: Invoice)
    requires Agrees(h, b, l) && c < |h.cells| && Home(inv.coin) == Some(b)
    ensures var h2 := Cancelled(h, c, inv);
            TablesOk(h2) && EntriesAgree(h2, b, l.mem.pending - {inv.address}) && h2.rows == h.rows
  {
    var h1 := Remove(h, At(b, inv.address));
    RemoveTracked(h, b, l, inv.address);
    CancelKeepsEntries(h1, b, l.mem.pending - {inv.address}, c);
    assert Cancelled(h, c, inv) == h1.(cells := h1.cells[c := h1.cells[c].(cancelled := true)]);
  }

  lemma FinishingSimulated(h: Shared, b: BaseCoin, before: L.Local, l: L.Local, inv: Invoice, token: Token,
                           confirmations: nat, sql: bool)
    requires Agrees(h, b, l) && Home(inv.coin) == Some(b) && inv.address in before.mem.pending && l.db == before.db
    requires l.mem == before.mem.(pending := before.mem.pending - {inv.address},
                                  timers := L.Cancel(before.mem.timers, inv.id))
    ensures var r := Alone(h, Finishing(inv, token), [Sql(sql)]);
            && Simulates(r, b, before, L.Finish(before, inv, confirmations, sql))
            && r.value.0.cells == h.cells
  {
    AloneOne(h, Finishing(inv, token), Sql(sql));
    if Terminates(h, Finishing(inv, token), Sql(sql)) {
      TerminateAgrees(h, b, l, inv.id, token, CONFIRMED);
    }
  }

  /** A terminal UPDATE leaves the entries alone. */
  lemma TerminateAgrees(h: Shared, b: BaseCoin, l: L.Local, id: InvoiceId, token: Token, status: Status)
    requires Agrees(h, b, l) && id in h.rows
    ensures var h' := Terminate(h, id, token, status); TablesOk(h') && EntriesAgree(h', b, l.mem.pending)
  {
  }

  /** The end of confirmCONFIRMED: LoadAndDelete, cancelTimeoutFunc, ConfirmInvoiceById. */
  lemma FinishSimulated(h: Shared, b: BaseCoin, l: L.Local, c: CellId, inv: Invoice, confirmations: nat, sql: bool)
    returns (cs: seq<Choice>)
    requires Agrees(h, b, l) && c < |h.cells| && Home(inv.coin) == Some(b) && inv.address in l.mem.pending
    ensures var r := Alone(h, Removing(c, inv), cs);
            var l' := L.Finish(l, inv, confirmations, sql);
            Simulates(r, b, l, l') && CancelsAgree(h, r.value.0, c, l, l', inv.id)
  {
    cs := [OK] + ([OK] + [Sql(sql)]);
    AloneThen(h, Removing(c, inv), OK, [OK] + [Sql(sql)]);
    AloneThen(Remove(h, SlotOf(inv)), Cancelling(c, inv, |h.log|), OK, [Sql(sql)]);
    CancelledAgrees(h, b, l, c, inv);
    var m := l.mem.(pending := l.mem.pending - {inv.address}, timers := L.Cancel(l.mem.timers, inv.id));
    FinishingSimulated(Cancelled(h, c, inv), b, l, L.Local(l.db, m), inv, |h.log|, confirmations, sql);
  }

  /** What confirmCONFIRMED on the entry at a does after loading the pointer and asking the daemon. */
  lemma ToldSimulated(h: Shared, b: BaseCoin, l: L.Local, a: Address, reply: L.Reply, sql: bool)
    returns (rest: seq<Choice>)
    requires Agrees(h, b, l) && a in l.mem.pending && l.mem.pending[a].txId.Some?
    ensures var c := h.tracked[At(b, a)];
            var r := Alone(h, Next(h, Asking(c, l.mem.pending[a]), Told(reply)), rest);
            var l' := L.Confirm(l, a, reply, sql);
            Simulates(r, b, l, l') && CancelsAgree(h, r.value.0, c, l, l', l.mem.pending[a].id)
  {
    var c := h.tracked[At(b, a)];
    var inv := l.mem.pending[a];
    assert SlotOf(inv) == At(b, a);
    rest := [];
    if reply.Rejected? {
      rest := [OK] + [Sql(sql)];
      ExpireSimulated(h, b, l, inv.id, a, None, sql);
      ExpiringKeepsCells(h, inv.id, At(b, a), sql);
    } else if reply.Seen? && Uint64(inv.confirmations) <= reply.confirmations {
      rest := FinishSimulated(h, b, l, c, inv, reply.confirmations, sql);
    } else {
      assert Alone(h, Done, []) == Some((h, Done));
    }
  }

  lemma ExpiringKeepsCells(h: Shared, id: InvoiceId, x: Slot, sql: bool)
    ensures var r := Alone(h, Expiring(id, x, None), [OK] + [Sql(sql)]); r.Some? && r.value.0.cells == h.cells
  {
    AloneThen(h, Expiring(id, x, None), OK, [Sql(sql)]);
    AloneOne(Effect(h, Expiring(id, x, None), OK), Next(h, Expiring(id, x, None), OK), Sql(sql));
  }

  /** confirmCONFIRMED on the entry at a. */
  lemma ConfirmSimulated(h: Shared, b: BaseCoin, l: L.Local, a: Address, reply: L.Reply, sql: bool)
    returns (cs: seq<Choice>)
    requires Agrees(h, b, l) && a in l.mem.pending
    ensures var c := h.tracked[At(b, a)];
            var r := Alone(h, Confirming(c), cs);
            var l' := L.Confirm(l, a, reply, sql);
            Simulates(r, b, l, l') && CancelsAgree(h, r.value.0, c, l, l', l.mem.pending[a].id)
  {
    var c := h.tracked[At(b, a)];
    var inv := h.cells[c].inv;
    assert l.mem.pending[a] == inv;
    if inv.txId.None? {
      cs := [OK];
      AloneOne(h, Confirming(c), OK);
    } else {
      var rest := ToldSimulated(h, b, l, a, reply, sql);
      cs := [OK] + ([Told(reply)] + rest);
      AloneThen(h, Confirming(c), OK, [Told(reply)] + rest);
      AloneThen(h, Asking(c, inv), Told(reply), rest);
    }
  }

  lemma BlockingSimulated(h: Shared, b: BaseCoin, l: L.Local, h1: Shared, a: Address, row: Invoice)
    requires Agrees(h, b, l) && a in l.mem.pending && TablesOk(h1) && EntriesAgree(h1, b, l.mem.pending[a := row])
    requires h1.rows == h.rows && h1.tracked == h.tracked
    ensures var r := Alone(h1, Blocking(At(b, a)), [OK]);
            Simulates(r, b, l, L.Block(l, a)) && r.value.0.cells == h1.cells
  {
    AloneOne(h1, Blocking(At(b, a)), OK);
    RemoveTracked(h1, b, l.(mem := l.mem.(pending := l.mem.pending[a := row])), a);
    RemovedAnyway(l.mem.pending, a, row);
  }

  lemma RemovedAnyway(pending: map<Address, Invoice>, a: Address, row: Invoice)
    ensures pending[a := row] - {a} == pending - {a}
  {
  }

  /** A check that marks and is rejected: its writes stay invisible, and the entry is gone. */
  lemma BlockSimulated(h: Shared, b: BaseCoin, l: L.Local, a: Address, tx: TxId, amount: nat)
    requires Agrees(h, b, l) && a in l.mem.pending
    requires Marks(h, Marking(h.tracked[At(b, a)], tx, amount), Told(L.Rejected))
    ensures var c := h.tracked[At(b, a)];
            var r := Alone(h, Marking(c, tx, amount), [Told(L.Rejected)] + ([OK] + [OK]));
            Simulates(r, b, l, L.Block(l, a)) && CancelsAgree(h, r.value.0, c, l, L.Block(l, a), l.mem.pending[a].id)
  {
    var c := h.tracked[At(b, a)];
    var row := MarkedRow(h, Marking(c, tx, amount));
    assert Known(h, h.cells[c].inv) && SlotOf(row) == At(b, a);
    AloneThen(h, Marking(c, tx, amount), Told(L.Rejected), [OK] + [OK]);
    AloneThen(h, Hanging(c, row), OK, [OK]);
    var h1 := Effect(h, Hanging(c, row), OK);
    PointerAgrees(h, b, l.mem.pending, a, row);
    BlockingSimulated(h, b, l, h1, a, row);
  }

  /** confirmPENDING_MEMPOOL followed by confirmCONFIRMED. */
  lemma JudgedSimulated(h: Shared, b: BaseCoin, l: L.Local, a: Address, tx: TxId, amount: nat, markSql: bool,
                        reply: L.Reply, sql: bool)
    returns (cs: seq<Choice>)
    requires Agrees(h, b, l) && a in l.mem.pending && l.mem.pending[a].txId.None?
    ensures var c := h.tracked[At(b, a)];
            var r := Alone(h, Marking(c, tx, amount), cs);
            var l' := L.AfterMark(l, L.MarkMempool(l, a, amount, tx, markSql), a, reply, sql);
            Simulates(r, b, l, l') && CancelsAgree(h, r.value.0, c, l, l', l.mem.pending[a].id)
  {
    var c := h.tracked[At(b, a)];
    var pc := Marking(c, tx, amount);
    var l1 := L.MarkMempool(l, a, amount, tx, markSql);
    var mark := MarkChoices(h, pc, markSql);
    MarkSimulated(h, b, l, a, tx, amount, markSql);
    var h1 := Alone(h, pc, mark).value.0;
    MarkKeepsEntry(h, b, l, a, tx, amount, markSql);
    if reply.Rejected? && l1.mem.pending[a].txId.Some? {
      MarkedMeansMarks(h, b, l, a, tx, amount, markSql);
      cs := [Told(L.Rejected)] + ([OK] + [OK]);
      BlockSimulated(h, b, l, a, tx, amount);
    } else {
      var confirm := ConfirmSimulated(h1, b, l1, a, reply, sql);
      AloneConcat(h, pc, mark, confirm);
      cs := mark + confirm;
    }
  }

  lemma MarkKeepsEntry(h: Shared, b: BaseCoin, l: L.Local, a: Address, tx: TxId, amount: nat, sql: bool)
    requires Agrees(h, b, l) && a in l.mem.pending
    ensures var l1 := L.MarkMempool(l, a, amount, tx, sql);
            && a in l1.mem.pending && l1.mem.pending[a].id == l.mem.pending[a].id
            && l1.mem.timers == l.mem.timers && l1.mem.releases == l.mem.releases
  {
  }

  lemma MarkedMeansMarks(h: Shared, b: BaseCoin, l: L.Local, a: Address, tx: TxId, amount: nat, sql: bool)
    requires Agrees(h, b, l) && a in l.mem.pending && l.mem.pending[a].txId.None?
    requires L.MarkMempool(l, a, amount, tx, sql).mem.pending[a].txId.Some?
    ensures Marks(h, Marking(h.tracked[At(b, a)], tx, amount), Told(L.Rejected))
    ensures L.MarkMempool(l, a, amount, tx, sql).mem.pending[a].address == a
  {
    MarksAgrees(h, b, l, a, tx, amount, sql);
    assert Known(h, h.cells[h.tracked[At(b, a)]].inv);
  }

  /** The first two operations of a check: load the pointer, and judge the transaction. */
  lemma CheckingThen(h: Shared, c: CellId, tx: TxId, judged: Choice, rest: seq<Choice>)
    requires c < |h.cells|
    ensures Alone(h, Checking(c, tx), [OK] + ([judged] + rest))
         == Alone(h, Next(h, Verifying(c, tx, h.cells[c].inv), judged), rest)
  {
    AloneThen(h, Checking(c, tx), OK, [judged] + rest);
    AloneThen(h, Verifying(c, tx, h.cells[c].inv), judged, rest);
  }

  /** What verifyTxOnMempool on the entry at a does once its transaction is judged. */
  lemma VerifiedSimulated(h: Shared, b: BaseCoin, l: L.Local, a: Address, tx: TxId, verdict: Option<nat>, markSql: bool,
                          reply: L.Reply, sql: bool)
    returns (rest: seq<Choice>)
    requires Agrees(h, b, l) && a in l.mem.pending
    requires l.mem.pending[a].status == PENDING ==> l.mem.pending[a].txId.None?
    ensures var c := h.tracked[At(b, a)];
            var pc := Next(h, Verifying(c, tx, l.mem.pending[a]), Choice(verdict, L.Unreachable, true));
            var r := Alone(h, pc, rest);
            var l' := L.CheckTx(l, a, tx, verdict, markSql, reply, sql);
            Simulates(r, b, l, l') && CancelsAgree(h, r.value.0, c, l, l', l.mem.pending[a].id)
  {
    var inv := l.mem.pending[a];
    if verdict.Some? && inv.required <= verdict.value && inv.status == PENDING {
      rest := JudgedSimulated(h, b, l, a, tx, verdict.value, markSql, reply, sql);
    } else {
      rest := [];
      assert Alone(h, Done, []) == Some((h, Done));
    }
  }

  /** One goroutine of verifyTxOnMempool on the entry at a. */
  lemma CheckTxSimulated(h: Shared, b: BaseCoin, l: L.Local, a: Address, tx: TxId, verdict: Option<nat>, markSql: bool,
                         reply: L.Reply, sql: bool)
    returns (rest: seq<Choice>)
    requires Agrees(h, b, l) && a in l.mem.pending
    requires l.mem.pending[a].status == PENDING ==> l.mem.pending[a].txId.None?
    ensures var c := h.tracked[At(b, a)];
            var r := Alone(h, Checking(c, tx), [OK] + ([Choice(verdict, L.Unreachable, true)] + rest));
            var l' := L.CheckTx(l, a, tx, verdict, markSql, reply, sql);
            Simulates(r, b, l, l') && CancelsAgree(h, r.value.0, c, l, l', l.mem.pending[a].id)
  {
    rest := VerifiedSimulated(h, b, l, a, tx, verdict, markSql, reply, sql);
    CheckingThen(h, h.tracked[At(b, a)], tx, Choice(verdict, L.Unreachable, true), rest);
  }

  /** handleInvoiceHelper taking its expiry branch. */
  lemma FireSimulated(h: Shared, b: BaseCoin, l: L.Local, c: CellId, id: InvoiceId, a: Address, sql: bool)
    requires Agrees(h, b, l) && c < |h.cells|
    requires id in l.mem.timers && l.mem.timers[id] == L.Timer(a, h.cells[c].cancelled)
    ensures Simulates(Alone(h, Waiting(c, id, At(b, a)), [OK] + ([OK] + [Sql(sql)])), b, l, L.Fire(l, id, sql))
  {
    var l1 := l.(mem := l.mem.(timers := l.mem.timers - {id}));
    AloneThen(h, Waiting(c, id, At(b, a)), OK, [OK] + [Sql(sql)]);
    ExpireSimulated(h, b, l1, id, a, Some(c), sql);
  }

  lemma StoreAgrees(h: Shared, b: BaseCoin, pending: map<Address, Invoice>, inv: Invoice)
    requires TablesOk(h) && EntriesAgree(h, b, pending) && Known(h, inv) && Home(inv.coin) == Some(b)
    ensures var h' := Effect(h, Storing(inv), OK); TablesOk(h') && EntriesAgree(h', b, pending[inv.address := inv])
  {
    EffectGrows(h, Storing(inv), OK);
  }

  /** handleInvoice, which also starts the timer goroutine. */
  lemma RegisterSimulated(h: Shared, b: BaseCoin, l: L.Local, inv: Invoice)
    requires Agrees(h, b, l) && Known(h, inv) && Home(inv.coin) == Some(b)
    ensures Simulates(Alone(h, Registering(inv), [OK] + [OK]), b, l, L.Local(l.db, L.Register(l.mem, inv)))
  {
    assert SlotOf(inv) == At(b, inv.address);
    AloneThen(h, Registering(inv), OK, [OK]);
    AloneOne(h, Next(h, Registering(inv), OK), OK);
    if inv.address !in l.mem.pending {
      StoreAgrees(h, b, l.mem.pending, inv);
    }
  }
}
