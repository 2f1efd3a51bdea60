/** Why whole-run status safety is claimed for atomic handlers only: a goroutine that keeps an entry after its timer
    expired the invoice overwrites the terminal status, in one of two ways, and in no other. */
module StaleHandler {
  import opened Domain
  import opened Interleaving
  import opened Registrations
  import L = Lifecycle
  import opened Lifetimes

  const ADDR: Address := Derived(FBtc, Hd(7), Indices(0, 1))
  const INV: Invoice := Invoice(0, ADDR, Base(BTC), 1, None, 0, PENDING, 0, None, 0)
  const SLOT: Slot := Slot(Some(BTC), ADDR)
  const OUTS: seq<Output> := [Output(Some(ADDR), [], 1)]
  const GO: Choice := Choice(Some(1), L.Unreachable, true)

  lemma Snoc(steps: seq<Step>, s: State, step: Step)
    requires Exec(steps) == Some(s) && Enabled(s, step)
    ensures Exec(steps + [step]) == Some(Apply(s, step))
  {
    assert (steps + [step])[..|steps|] == steps;
  }

  const REGISTERED: State :=
    State(Shared(map[0 := INV], map[0 := OUTS], [Cell(INV, false)], map[SLOT := 0], [Stored(SLOT)], [], []),
          [Done, Waiting(0, 0, SLOT)])

  const DECIDED: State := REGISTERED.(threads := [Done, Waiting(0, 0, SLOT), Marking(0, 0, 1)])

  const FIRST_EXPIRED: State :=
    State(Shared(map[0 := INV.(status := EXPIRED)], map[0 := OUTS], [Cell(INV, false)], map[],
                 [Stored(SLOT), Removed(SLOT)], [Terminal(0, SLOT, EXPIRED, 1)], []),
          [Done, Releasing(SLOT, 1), Marking(0, 0, 1)])

  /** A transaction is seen, an invoice inserted and registered. */
  const SETUP: seq<Step> := [] + [Observe(0, OUTS)] + [Insert(INV)] + [Run(0, GO)] + [Run(0, GO)]

  /** The entry is handed to the transaction's handler, which decides to mark it. */
  const DECISION: seq<Step> := SETUP + [RangeTx(SLOT, 0)] + [Run(2, GO)] + [Run(2, GO)]

  /** The timer expires the invoice. */
  const EXPIRY: seq<Step> := DECISION + [Run(1, GO)] + [Run(1, GO)] + [Run(1, GO)]

  lemma Sets()
    ensures Exec(SETUP) == Some(REGISTERED)
  {
    var t1 := [Observe(0, OUTS)];
    var t2 := t1 + [Insert(INV)];
    var t3 := t2 + [Run(0, GO)];
    Snoc([], INIT, Observe(0, OUTS));
    assert [] + [Observe(0, OUTS)] == t1;
    var s1 := Apply(INIT, Observe(0, OUTS));
    Snoc(t1, s1, Insert(INV));
    var s2 := Apply(s1, Insert(INV));
    Snoc(t2, s2, Run(0, GO));
    var s3 := Apply(s2, Run(0, GO));
    assert s3.threads == [Storing(INV)];
    Snoc(t3, s3, Run(0, GO));
    assert Apply(s3, Run(0, GO)) == REGISTERED;
  }

  lemma Decides()
    ensures Exec(DECISION) == Some(DECIDED)
  {
    Sets();
    Snoc(SETUP, REGISTERED, RangeTx(SLOT, 0));
    var s1 := Apply(REGISTERED, RangeTx(SLOT, 0));
    assert s1.threads == [Done, Waiting(0, 0, SLOT), Checking(0, 0)];
    Snoc(SETUP + [RangeTx(SLOT, 0)], s1, Run(2, GO));
    var s2 := Apply(s1, Run(2, GO));
    assert s2.threads == [Done, Waiting(0, 0, SLOT), Verifying(0, 0, INV)];
    Snoc(SETUP + [RangeTx(SLOT, 0)] + [Run(2, GO)], s2, Run(2, GO));
    assert Apply(s2, Run(2, GO)) == DECIDED;
  }

  const FIRED: State := DECIDED.(threads := [Done, Expiring(0, SLOT, Some(0)), Marking(0, 0, 1)])

  const TAKEN: State :=
    State(DECIDED.shared.(tracked := map[], log := [Stored(SLOT), Removed(SLOT)]),
          [Done, Closing(0, SLOT, 1, Some(0)), Marking(0, 0, 1)])

  lemma Fires()
    ensures Exec(DECISION + [Run(1, GO)]) == Some(FIRED)
  {
    Decides();
    Snoc(DECISION, DECIDED, Run(1, GO));
    assert Apply(DECIDED, Run(1, GO)) == FIRED;
  }

  lemma Takes()
    ensures Exec(DECISION + [Run(1, GO)] + [Run(1, GO)]) == Some(TAKEN)
  {
    Fires();
    Snoc(DECISION + [Run(1, GO)], FIRED, Run(1, GO));
    assert Apply(FIRED, Run(1, GO)) == TAKEN;
  }

  lemma Expires()
    ensures Exec(EXPIRY) == Some(FIRST_EXPIRED)
  {
    Takes();
    Snoc(DECISION + [Run(1, GO)] + [Run(1, GO)], TAKEN, Run(1, GO));
    var s := Apply(TAKEN, Run(1, GO));
    assert s.shared.rows == FIRST_EXPIRED.shared.rows && s.shared.terminals == FIRST_EXPIRED.shared.terminals;
    assert s.threads == FIRST_EXPIRED.threads;
  }

  /** After this run the invoice is expired; one more operation of the handler that still holds its entry makes it
      pending again. */
  lemma TerminalOverwritten()
    ensures Exec(EXPIRY).Some? && 0 in Exec(EXPIRY).value.shared.rows
        && Exec(EXPIRY).value.shared.rows[0].status == EXPIRED
    ensures Exec(EXPIRY + [Run(2, GO)]).Some? && 0 in Exec(EXPIRY + [Run(2, GO)]).value.shared.rows
    ensures Exec(EXPIRY + [Run(2, GO)]).value.shared.rows[0].status == PENDING_MEMPOOL
  {
    Expires();
    Snoc(EXPIRY, FIRST_EXPIRED, Run(2, GO));
  }

  // ----- When a terminal status changes -----

  /** The step is the mempool UPDATE of a handler that holds an entry for this invoice. */
  predicate StaleMark(s: State, step: Step, id: InvoiceId)
    requires Enabled(s, step)
  {
    && step.Run? && s.threads[step.tid].Marking?
    && s.shared.cells[s.threads[step.tid].cell].inv.id == id
    && Marks(s.shared, s.threads[step.tid], step.choice) && !step.choice.reply.Rejected?
  }

  predicate Between(log: seq<MapOp>, p: Token, q: Token, op: MapOp) {
    exists k :: 0 <= k < |log| && (p < k < q || q < k < p) && log[k] == op
  }

  /** The earlier terminal UPDATE that gave the invoice its status, and a store at its address between the removal
      behind that UPDATE and another one, both of this life: the later of the two removals took the entry of a later
      registration. */
  predicate OtherRegistration(h: Shared, id: InvoiceId, token: Token)
    requires id in h.rows
  {
    exists i :: && 0 <= i < |h.terminals| && h.terminals[i].id == id && h.terminals[i].status == h.rows[id].status
                && LifeStart(h.log) <= h.terminals[i].token && LifeStart(h.log) <= token
                && Between(h.log, h.terminals[i].token, token, Stored(SlotOf(h.rows[id])))
  }

  /** The step is a terminal UPDATE of another status, by a goroutine whose removal belongs to another registration of
      the address than the one behind the status. */
  predicate StaleTerminal(s: State, step: Step, id: InvoiceId)
    requires Enabled(s, step) && id in s.shared.rows
  {
    && step.Run?
    && var pc := s.threads[step.tid];
       && Terminates(s.shared, pc, step.choice) && Holds(pc) == Some(id)
       && s.shared.rows[id].status != (if pc.Finishing? then CONFIRMED else EXPIRED)
       && OtherRegistration(s.shared, id, License(pc).value.0)
  }

  lemma TerminatesFromOther(s: State, tid: nat, choice: Choice, id: InvoiceId)
    requires Accounted(s) && AllCurrent(s) && tid < |s.threads| && Terminates(s.shared, s.threads[tid], choice)
    requires Holds(s.threads[tid]) == Some(id) && id in s.shared.rows && !IsPending(s.shared.rows[id].status)
    ensures OtherRegistration(s.shared, id, License(s.threads[tid]).value.0)
  {
    var h, pc := s.shared, s.threads[tid];
    assert ThreadCurrent(h, pc) && LicenseOk(h, pc) && ThreadOk(h, pc);
    var (token, a) := License(pc).value;
    var i :| 0 <= i < |h.terminals| && h.terminals[i].id == id && h.terminals[i].status == h.rows[id].status
             && LifeStart(h.log) <= h.terminals[i].token;
    assert Licensed(h, h.terminals[i].token, h.terminals[i].slot)
        && Anchored(h, h.terminals[i].id, h.terminals[i].slot);
    assert h.terminals[i].token != token;
    if token < h.terminals[i].token {
      StoreBetweenRemovals(h.log, token, h.terminals[i].token, a);
    } else {
      StoreBetweenRemovals(h.log, h.terminals[i].token, token, a);
    }
    assert Between(h.log, h.terminals[i].token, token, Stored(SlotOf(h.rows[id])));
  }

  /** Under any interleaving, with reused addresses, crashes and reloads: a terminal status changes exactly if the step
      is the mempool UPDATE of a handler still holding the invoice's entry, or a terminal UPDATE of another status by a
      goroutine of another registration of the address. */
  lemma {:induction false} TerminalStatusLeft(steps: seq<Step>, step: Step, id: InvoiceId)
    requires Exec(steps).Some? && Enabled(Exec(steps).value, step)
    requires var h := Exec(steps).value.shared; id in h.rows && !IsPending(h.rows[id].status)
    ensures var (s, s') := (Exec(steps).value, Apply(Exec(steps).value, step));
            && id in s'.shared.rows
            && (s'.shared.rows[id].status != s.shared.rows[id].status
                <==> StaleMark(s, step, id) || StaleTerminal(s, step, id))
  {
    var s := Exec(steps).value;
    RunAccounted(steps);
    RunCurrent(steps);
    if step.Run? && Terminates(s.shared, s.threads[step.tid], step.choice) && Holds(s.threads[step.tid]) == Some(id) {
      TerminatesFromOther(s, step.tid, step.choice, id);
    }
  }

  lemma OtherMeansTwoStores(h: Shared, id: InvoiceId, token: Token)
    requires HistoryOk(h) && id in h.rows && OtherRegistration(h, id, token)
    requires Licensed(h, token, SlotOf(h.rows[id]))
    ensures |PositionsSince(h.log, LifeStart(h.log), Stored(SlotOf(h.rows[id])))| >= 2
  {
    var a := SlotOf(h.rows[id]);
    var i :| 0 <= i < |h.terminals| && h.terminals[i].id == id && h.terminals[i].status == h.rows[id].status
             && LifeStart(h.log) <= h.terminals[i].token && LifeStart(h.log) <= token
             && Between(h.log, h.terminals[i].token, token, Stored(a));
    assert Licensed(h, h.terminals[i].token, h.terminals[i].slot)
        && Anchored(h, h.terminals[i].id, h.terminals[i].slot);
    if token < h.terminals[i].token {
      TwoRemovalsTwoStores(h.log, token, h.terminals[i].token, a);
    } else {
      TwoRemovalsTwoStores(h.log, h.terminals[i].token, token, a);
    }
  }

  /** For an address stored at most once since the last crash only the mempool UPDATE remains. */
  lemma {:induction false} OnlyStaleMarksOverwrite(steps: seq<Step>, step: Step, id: InvoiceId)
    requires Exec(steps).Some? && Enabled(Exec(steps).value, step)
    requires var h := Exec(steps).value.shared;
             && id in h.rows && !IsPending(h.rows[id].status)
             && |PositionsSince(h.log, LifeStart(h.log), Stored(SlotOf(h.rows[id])))| <= 1
    ensures var (s, s') := (Exec(steps).value, Apply(Exec(steps).value, step));
            && id in s'.shared.rows
            && (s'.shared.rows[id].status != s.shared.rows[id].status <==> StaleMark(s, step, id))
  {
    var s := Exec(steps).value;
    TerminalStatusLeft(steps, step, id);
    RunAccounted(steps);
    if StaleTerminal(s, step, id) {
      assert LicenseOk(s.shared, s.threads[step.tid]) && ThreadOk(s.shared, s.threads[step.tid]);
      OtherMeansTwoStores(s.shared, id, License(s.threads[step.tid]).value.0);
      assert false;
    }
  }
}
