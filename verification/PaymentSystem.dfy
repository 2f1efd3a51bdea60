/** The whole system over runs: all processors, the database, observed transactions, key changes, crashes and
    restarts. */
module PaymentSystem {
  import opened Domain
  import opened Confirmations
  import opened Lifecycle
  import opened Invariants
  import opened Settlement
  import Amounts
  import P = Pool
  import Steps
  import Frames
  import Claims
  import Promptness

  /** procs holds the memory of each running processor; seen the outputs of every transaction observed so far. */
  datatype System = System(db: Db, procs: map<BaseCoin, Memory>, seen: Observed)

  const INIT: System := System(Db(map[], P.EMPTY, [], map[]), map[], map[])

  function Mem(s: System, b: BaseCoin): Memory {
    if b in s.procs then s.procs[b] else NO_MEMORY
  }

  function At(s: System, b: BaseCoin): Local {
    Local(s.db, Mem(s, b))
  }

  datatype Step =
    | Handle(base: BaseCoin, act: Act)                              // one step of one running processor
    | Observe(tx: TxId, outs: seq<Output>)                          // a transaction with fixed contents appears
    | UpdateCryptoKeys(user: UserId, requests: seq<P.KeyRequest>)
    | Restart(now: int, live: set<BaseCoin>, rows: seq<Invoice>)    // crash, then loadPersistedPendingInvoices

  /** The daemon client of BTC and LTC never leads to the rejection branch (Processor.AskUtxoDaemon). */
  predicate ClientOk(b: BaseCoin, act: Act) {
    Utxo(b) && (act.DoCheckTx? || act.DoCheckBlock?) ==> !act.reply.Rejected?
  }

  ghost predicate Enabled(s: System, step: Step) {
    match step
    case Handle(b, act) =>
      b in s.procs && ActEnabled(At(s, b), act) && ClientOk(b, act) && VerdictOk(b, act, s.seen)
    case Observe(tx, _) => tx !in s.seen
    case UpdateCryptoKeys(_, _) => true
    case Restart(now, _, rows) => Frames.Lists(Shift(s.db, now), rows)
  }

  ghost function Apply(s: System, step: Step): System
    requires Enabled(s, step)
  {
    match step
    case Handle(b, act) =>
      var l := Do(At(s, b), b, act);
      s.(db := l.db, procs := s.procs[b := l.mem])
    case Observe(tx, outs) => s.(seen := s.seen[tx := outs])
    case UpdateCryptoKeys(user, rs) => s.(db := s.db.(pool := P.UpdateKeys(s.db.pool, user, rs)))
    case Restart(now, live, rows) => s.(db := Shift(s.db, now), procs := map b | b in live :: Load(b, rows))
  }

  /** The state after a run from the empty system; None if some step was not possible. */
  ghost function Exec(steps: seq<Step>): Option<System> {
    if steps == [] then Some(INIT)
    else
      var n := |steps| - 1;
      match Exec(steps[..n])
      case None => None
      case Some(s) => if Enabled(s, steps[n]) then Some(Apply(s, steps[n])) else None
  }

  // ----- Invariants of every run -----

  ghost predicate Consistent(s: System) {
    && RowsOk(s.db)
    && (forall b :: MemOk(s.db, b, Mem(s, b)))
    && (forall b :: Utxo(b) ==> Settled(s.db, b, s.seen))
  }

  lemma HandleKeepsConsistent(s: System, b: BaseCoin, act: Act)
    requires Consistent(s) && Enabled(s, Handle(b, act))
    ensures Consistent(Apply(s, Handle(b, act))) && Evolves(s.db, Apply(s, Handle(b, act)).db)
  {
    var s' := Apply(s, Handle(b, act));
    Steps.DoKeepsInv(At(s, b), b, act);
    forall c
      ensures MemOk(s'.db, c, Mem(s', c))
    {
      if c != b {
        Frames.DoFrame(At(s, b), b, act, c);
        Frames.FrameKeepsMem(s.db, s'.db, c, Mem(s, c));
      }
    }
    forall c | Utxo(c)
      ensures Settled(s'.db, c, s'.seen)
    {
      if c == b {
        DoSettles(At(s, b), b, act, s.seen);
      } else {
        Frames.DoFrame(At(s, b), b, act, c);
        FrameSettles(s.db, s'.db, c, s.seen);
      }
    }
  }

  lemma {:induction false} ApplyKeepsConsistent(s: System, step: Step)
    requires Consistent(s) && Enabled(s, step)
    ensures Consistent(Apply(s, step)) && Evolves(s.db, Apply(s, step).db)
  {
    var s' := Apply(s, step);
    match step
    case Handle(b, act) => HandleKeepsConsistent(s, b, act);
    case Observe(tx, outs) =>
      forall b
        ensures MemOk(s'.db, b, Mem(s', b)) && (Utxo(b) ==> Settled(s'.db, b, s'.seen))
      {
        assert Mem(s', b) == Mem(s, b);
        if Utxo(b) {
          ObserveSettles(s.db, b, s.seen, tx, outs);
        }
      }
    case UpdateCryptoKeys(user, rs) =>
      Frames.UpdateKeysKeepsRows(s.db, user, rs);
      forall b
        ensures MemOk(s'.db, b, Mem(s', b)) && (Utxo(b) ==> Settled(s'.db, b, s'.seen))
      {
        assert Frames.SameRows(s.db, s'.db, b);
        Frames.FrameKeepsMem(s.db, s'.db, b, Mem(s, b));
        if Utxo(b) {
          FrameSettles(s.db, s'.db, b, s.seen);
        }
      }
    case Restart(now, live, rows) =>
      Frames.ShiftKeepsRows(s.db, now);
      forall b
        ensures MemOk(s'.db, b, Mem(s', b)) && (Utxo(b) ==> Settled(s'.db, b, s'.seen))
      {
        Frames.LoadKeepsMem(s'.db, b, rows);
        if Utxo(b) {
          ShiftSettles(s.db, now, b, s.seen);
        }
      }
  }

  lemma {:induction false} RunConsistent(steps: seq<Step>)
    requires Exec(steps).Some?
    ensures Consistent(Exec(steps).value)
    decreases |steps|
  {
    if steps != [] {
      var n := |steps| - 1;
      RunConsistent(steps[..n]);
      ApplyKeepsConsistent(Exec(steps[..n]).value, steps[n]);
    }
  }

  // ----- Status safety -----

  lemma {:induction false} RunEvolves(steps: seq<Step>, j: nat)
    requires j <= |steps| && Exec(steps).Some?
    ensures Exec(steps[..j]).Some? && Evolves(Exec(steps[..j]).value.db, Exec(steps).value.db)
    decreases |steps|
  {
    if j == |steps| {
      assert steps[..j] == steps;
    } else {
      var n := |steps| - 1;
      RunEvolves(steps[..n], j);
      assert steps[..n][..j] == steps[..j];
      RunConsistent(steps[..n]);
      ApplyKeepsConsistent(Exec(steps[..n]).value, steps[n]);
      EvolvesTransitive(Exec(steps[..j]).value.db, Exec(steps[..n]).value.db, Exec(steps).value.db);
    }
  }

  /** The step makes the rejection branch of b expire an invoice. */
  ghost predicate RejectsIn(s: System, step: Step, b: BaseCoin) {
    step.Handle? && step.base == b && Enabled(s, step) && Steps.Rejects(At(s, b), step.act)
  }

  ghost predicate Unrejected(steps: seq<Step>, b: BaseCoin) {
    forall j :: 0 <= j < |steps| && Exec(steps[..j]).Some? ==> !RejectsIn(Exec(steps[..j]).value, steps[j], b)
  }

  lemma UnrejectedPrefix(steps: seq<Step>, b: BaseCoin)
    requires Unrejected(steps, b) && steps != []
    ensures Unrejected(steps[..|steps| - 1], b)
  {
    var init := steps[..|steps| - 1];
    forall j | 0 <= j < |init| && Exec(init[..j]).Some?
      ensures !RejectsIn(Exec(init[..j]).value, init[j], b)
    {
      assert init[..j] == steps[..j];
    }
  }

  /** No reply of the daemon of b is a rejection. */
  predicate NeverRejected(steps: seq<Step>, b: BaseCoin) {
    forall j :: 0 <= j < |steps| && steps[j].Handle? && steps[j].base == b ==>
      !(steps[j].act.DoCheckBlock? && steps[j].act.reply.Rejected?)
  }

  /** BTC and LTC runs never reject; nor does any run without such replies. */
  lemma WithoutRejections(steps: seq<Step>, b: BaseCoin)
    requires Utxo(b) || NeverRejected(steps, b)
    ensures Unrejected(steps, b)
  {
  }

  lemma ApplyKeepsPrompt(s: System, step: Step, b: BaseCoin)
    requires Consistent(s) && Enabled(s, step) && !RejectsIn(s, step, b) && Prompt(s.db, b, Mem(s, b))
    ensures Prompt(Apply(s, step).db, b, Mem(Apply(s, step), b))
  {
    var s' := Apply(s, step);
    match step
    case Handle(c, act) =>
      if c == b {
        Promptness.DoKeepsPrompt(At(s, b), b, act);
      } else {
        Promptness.OtherKeepsPrompt(At(s, c), c, act, b, Mem(s, b));
      }
    case Observe(_, _) =>
    case UpdateCryptoKeys(_, _) => SameRowsKeepPrompt(s.db, s'.db, b, Mem(s, b));
    case Restart(now, live, rows) =>
      Frames.ShiftKeepsRows(s.db, now);
      Frames.LoadKeepsMem(s'.db, b, rows);
      Promptness.OldWritesStayLegal(s.db, s'.db, b);
  }

  lemma SameRowsKeepPrompt(d: Db, d': Db, b: BaseCoin, m: Memory)
    requires Prompt(d, b, m) && d'.invoices == d.invoices && d'.audit == d.audit
    ensures Prompt(d', b, m)
  {
    forall id | Armed(m, id)
      ensures PendingIn(d', b, id)
    {
      assert PendingIn(d, b, id);
    }
  }

  lemma {:induction false} RunPrompt(steps: seq<Step>, b: BaseCoin)
    requires Exec(steps).Some? && Unrejected(steps, b)
    ensures Prompt(Exec(steps).value.db, b, Mem(Exec(steps).value, b))
    decreases |steps|
  {
    if steps != [] {
      var n := |steps| - 1;
      UnrejectedPrefix(steps, b);
      RunPrompt(steps[..n], b);
      RunConsistent(steps[..n]);
      ApplyKeepsPrompt(Exec(steps[..n]).value, steps[n], b);
    }
  }

  /** Status safety, for all coins: every status written in a run is a legal move from the status the row had then, or
      expires an expired row again, which needs a rejection; and between any two points of the run terminal rows do not
      change and a set tx_id keeps its value and amount. */
  lemma {:induction false} StatusSafety(steps: seq<Step>, j: nat, id: InvoiceId)
    requires j <= |steps| && Exec(steps).Some?
    requires Exec(steps[..j]).Some? && id in Exec(steps[..j]).value.db.invoices
    ensures var d, d' := Exec(steps[..j]).value.db, Exec(steps).value.db;
            && (forall i :: 0 <= i < |d'.audit| ==> WriteOk(d', d'.audit[i]))
            && (forall i, b :: 0 <= i < |d'.audit| && Owns(d', b, d'.audit[i].id) && Unrejected(steps, b)
                               ==> Follows(d'.audit[i].before, d'.audit[i].after))
            && d.audit <= d'.audit
            && id in d'.invoices
            && (!IsPending(d.invoices[id].status) ==> d'.invoices[id] == d.invoices[id])
            && (d.invoices[id].txId.Some? ==>
                  d'.invoices[id].txId == d.invoices[id].txId && d'.invoices[id].actual == d.invoices[id].actual)
            && (d.invoices[id].status == PENDING_MEMPOOL ==> d'.invoices[id].status != PENDING)
  {
    RunEvolves(steps, j);
    RunConsistent(steps);
    var d, d' := Exec(steps[..j]).value.db, Exec(steps).value.db;
    assert RowKept(d.invoices[id], d'.invoices[id]);
    forall i, b | 0 <= i < |d'.audit| && Owns(d', b, d'.audit[i].id) && Unrejected(steps, b)
      ensures Follows(d'.audit[i].before, d'.audit[i].after)
    {
      RunPrompt(steps, b);
    }
  }

  // ----- Settlement -----

  /** The step creates the invoice from the request. */
  predicate Creates(steps: seq<Step>, j: nat, b: BaseCoin, req: Request, id: InvoiceId, now: int) {
    && j < |steps| && steps[j].Handle? && steps[j].base == b && steps[j].act.DoCreate?
    && steps[j].act.req == req && steps[j].act.id == id && steps[j].act.now == now && req.confirmations < TWO32
  }

  /** An invoice that a step of the run created keeps what its request asked for: coin, user, amount and number of
      confirmations; its deadline never comes earlier. */
  lemma {:induction false} RequestIsKept(steps: seq<Step>, j: nat, b: BaseCoin, req: Request, id: InvoiceId, now: int)
    requires Exec(steps).Some? && Creates(steps, j, b, req, id, now)
    requires Exec(steps[..j + 1]).Some? && id in Exec(steps[..j + 1]).value.db.invoices
    ensures Requested(req, id, now, Exec(steps[..j + 1]).value.db.invoices[id])
    ensures id in Exec(steps).value.db.invoices
    ensures var r := Exec(steps).value.db.invoices[id];
            && r.user == req.user && r.coin == req.coin && Owns(Exec(steps).value.db, b, id)
            && r.required == req.amount && r.confirmations == Int16(req.confirmations)
            && now + (if req.timeout < 10 then 10 else req.timeout) <= r.expiresAt
  {
    RunEvolves(steps, j + 1);
    assert steps[..j + 1][..j] == steps[..j];
    var d := Exec(steps[..j + 1]).value.db;
    assert RowKept(d.invoices[id], Exec(steps).value.db.invoices[id]);
  }

  /** Every confirmed BTC or LTC invoice names an observed transaction whose outputs pay its address exactly the
      recorded amount, at least the required one, and the daemon reported at least the stored number of confirmations;
      for a request of c confirmations that is the requested number if c < 2^15. Outputs to other addresses count for
      nothing, and outputs to its own with their whole value. */
  lemma {:induction false} ConfirmedIsSettled(steps: seq<Step>, b: BaseCoin, id: InvoiceId)
    requires Exec(steps).Some? && (b == BTC || b == LTC)
    requires Owns(Exec(steps).value.db, b, id) && Exec(steps).value.db.invoices[id].status == CONFIRMED
    ensures var s := Exec(steps).value;
            var r := s.db.invoices[id];
            && r.txId.Some? && r.txId.value in s.seen
            && r.actual == Some(Amounts.PaidTo(b, s.seen[r.txId.value], r.address))
            && r.required <= r.actual.value
            && id in s.db.confs && Uint64(r.confirmations) <= s.db.confs[id]
            && forall c: nat :: c < TWO15 && r.confirmations == Int16(c) ==> c <= s.db.confs[id]
    ensures var s := Exec(steps).value;
            var r := s.db.invoices[id];
            var outs := s.seen[r.txId.value];
            var a := r.address;
            && ((forall o :: o in outs ==> o.address != Some(a) && (b == LTC ==> o.addresses != [a])) ==>
                  r.actual == Some(0) && r.required <= 0)
            && ((forall o :: o in outs ==> o.address == Some(a) || (b == LTC && o.addresses == [a])) ==>
                  r.actual == Some(Amounts.Total(outs)))
  {
    RunConsistent(steps);
    var s := Exec(steps).value;
    var r := s.db.invoices[id];
    assert Utxo(b) && Paid(s.db, b, id, s.seen);
    forall c: nat | c < TWO15 && r.confirmations == Int16(c)
      ensures c <= s.db.confs[id]
    {
      assert Threshold(c) == c;
    }
    var outs := s.seen[r.txId.value];
    if forall o :: o in outs ==> o.address != Some(r.address) && (b == LTC ==> o.addresses != [r.address]) {
      Amounts.NothingPaid(b, outs, r.address);
    }
    if forall o :: o in outs ==> o.address == Some(r.address) || (b == LTC && o.addresses == [r.address]) {
      Amounts.EverythingPaid(b, outs, r.address);
    }
  }

  /** A confirmed BTC or LTC invoice that a step of the run created got what the request asked for: at least its amount,
      with an output to its address if that is positive, and at least its number of confirmations below 2^15. */
  lemma {:induction false} SettledAsRequested(steps: seq<Step>, j: nat, b: BaseCoin, req: Request, id: InvoiceId,
                                              now: int)
    requires Exec(steps).Some? && Creates(steps, j, b, req, id, now) && (b == BTC || b == LTC)
    requires Exec(steps[..j + 1]).Some? && id in Exec(steps[..j + 1]).value.db.invoices
    requires id in Exec(steps).value.db.invoices && Exec(steps).value.db.invoices[id].status == CONFIRMED
    ensures var s := Exec(steps).value;
            var r := s.db.invoices[id];
            && r.txId.Some? && r.txId.value in s.seen && r.actual.Some? && req.amount <= r.actual.value
            && (0 < req.amount ==>
                  exists o :: o in s.seen[r.txId.value]
                    && (o.address == Some(r.address) || (b == LTC && o.addresses == [r.address])))
            && id in s.db.confs && (req.confirmations < 0x8000 ==> req.confirmations <= s.db.confs[id])
  {
    RequestIsKept(steps, j, b, req, id, now);
    ConfirmedIsSettled(steps, b, id);
  }

  // ----- Address exclusivity -----

  /** No claimed address of the coin or of one sharing its encoding derives from the key, and no armed timer's. */
  ghost predicate Quiet(s: System, b: BaseCoin, key: Key) {
    && (forall c :: FormatOf(c) == FormatOf(b) ==> Claims.QuietFor(s.db, c, Mem(s, c), key))
    && Claims.NoTimerOf(Mem(s, b), key)
  }

  /** ETH and BNB keys are disjoint, and a key update that takes effect leaves the coin with a quiet key. One that is
      refused, and one without a part for the coin, is free. */
  ghost predicate QuietStep(s: System, step: Step, b: BaseCoin) {
    && Steps.Apart(s.db.pool, b)
    && (step.UpdateCryptoKeys? && P.UpdateEach(s.db.pool, step.user, step.requests).Some? ==>
          P.KeyFor(step.requests, b).Some? ==> Quiet(s, b, P.KeyFor(step.requests, b).value))
  }

  /** The step does not reject the transaction of an invoice whose address is still in the pool. */
  ghost predicate CalmStep(s: System, step: Step, b: BaseCoin) {
    step.Handle? && step.base == b && Enabled(s, step) ==> !Steps.Harmful(At(s, b), b, step.act)
  }

  /** The premise of exclusivity for the steps from a position on. */
  ghost predicate Orderly(steps: seq<Step>, from: nat, b: BaseCoin) {
    forall j :: from <= j < |steps| && Exec(steps[..j]).Some? ==>
      QuietStep(Exec(steps[..j]).value, steps[j], b) && CalmStep(Exec(steps[..j]).value, steps[j], b)
  }

  lemma OrderlyPrefix(steps: seq<Step>, b: BaseCoin)
    requires Orderly(steps, 0, b) && steps != []
    ensures Orderly(steps[..|steps| - 1], 0, b)
  {
    var init := steps[..|steps| - 1];
    forall j | 0 <= j < |init| && Exec(init[..j]).Some?
      ensures QuietStep(Exec(init[..j]).value, init[j], b) && CalmStep(Exec(init[..j]).value, init[j], b)
    {
      assert init[..j] == steps[..j];
    }
  }

  ghost predicate QuietRun(steps: seq<Step>, b: BaseCoin) {
    forall j :: 0 <= j < |steps| && Exec(steps[..j]).Some? ==> QuietStep(Exec(steps[..j]).value, steps[j], b)
  }

  /** Without effective rejections quiet updates are all that is needed. */
  lemma QuietIsOrderly(steps: seq<Step>, b: BaseCoin)
    requires QuietRun(steps, b) && Unrejected(steps, b)
    ensures Orderly(steps, 0, b)
  {
    forall j | 0 <= j < |steps| && Exec(steps[..j]).Some?
      ensures QuietStep(Exec(steps[..j]).value, steps[j], b) && CalmStep(Exec(steps[..j]).value, steps[j], b)
    {
      assert !RejectsIn(Exec(steps[..j]).value, steps[j], b);
    }
  }

  /** Exclusivity for b, and b cannot hand out what a coin with the same encoding claims. */
  ghost predicate Secure(s: System, b: BaseCoin) {
    && ExclusiveOk(s.db, b, Mem(s, b))
    && forall c :: c != b && FormatOf(c) == FormatOf(b) ==> ForeignOk(s.db, b, c, Mem(s, c))
  }

  lemma ApplyKeepsForeign(s: System, step: Step, b: BaseCoin, c: BaseCoin)
    requires Consistent(s) && Secure(s, b) && Enabled(s, step) && QuietStep(s, step, b)
    requires c != b && FormatOf(c) == FormatOf(b)
    ensures ForeignOk(Apply(s, step).db, b, c, Mem(Apply(s, step), c))
  {
    var s' := Apply(s, step);
    match step
    case Handle(x, act) =>
      if x == c {
        Claims.ForeignSteps(At(s, c), b, c, act);
      } else {
        Claims.ForeignStays(At(s, x), x, act, b, c, Mem(s, c));
      }
    case Observe(_, _) =>
    case UpdateCryptoKeys(user, rs) =>
      if P.UpdateEach(s.db.pool, user, rs).Some? {
        Claims.UpdateKeepsForeign(s.db, user, rs, b, c, Mem(s, c));
      }
    case Restart(now, live, rows) =>
      Frames.ShiftKeepsRows(s.db, now);
      Frames.LoadKeepsMem(s'.db, c, rows);
      Claims.RestartKeepsForeign(s.db, now, b, c, Mem(s, c), Mem(s', c));
  }

  lemma {:induction false} ApplyKeepsOwn(s: System, step: Step, b: BaseCoin)
    requires Consistent(s) && Secure(s, b) && Enabled(s, step) && QuietStep(s, step, b) && CalmStep(s, step, b)
    ensures ExclusiveOk(Apply(s, step).db, b, Mem(Apply(s, step), b))
  {
    var s' := Apply(s, step);
    match step
    case Handle(x, act) =>
      if x == b {
        Steps.DoKeepsExclusive(At(s, b), b, act);
      } else {
        Claims.OtherKeepsExclusive(At(s, x), x, act, b, Mem(s, b));
      }
    case Observe(_, _) =>
    case UpdateCryptoKeys(user, rs) =>
      if P.UpdateEach(s.db.pool, user, rs).Some? {
        Claims.UpdateKeepsExclusive(s.db, user, rs, b, Mem(s, b));
      }
    case Restart(now, live, rows) =>
      Frames.ShiftKeepsRows(s.db, now);
      Frames.LoadKeepsMem(s'.db, b, rows);
      Claims.RestartKeepsExclusive(s.db, now, b, Mem(s, b), Mem(s', b));
  }

  lemma {:induction false} ApplyKeepsSecure(s: System, step: Step, b: BaseCoin)
    requires Consistent(s) && Secure(s, b) && Enabled(s, step) && QuietStep(s, step, b) && CalmStep(s, step, b)
    ensures Secure(Apply(s, step), b)
  {
    ApplyKeepsOwn(s, step, b);
    forall c | c != b && FormatOf(c) == FormatOf(b)
      ensures ForeignOk(Apply(s, step).db, b, c, Mem(Apply(s, step), c))
    {
      ApplyKeepsForeign(s, step, b, c);
    }
  }

  /** Address exclusivity, for every coin: over every run with delayed releases, timers, key changes, crashes and
      restarts whose key updates are quiet and which rejects no transaction of an invoice whose address is still in the
      pool, no two pending invoices share an address, each one's address row is occupied or was deleted by a key change,
      and no spawned release targets it. */
  lemma {:induction false} AddressExclusivity(steps: seq<Step>, b: BaseCoin)
    requires Exec(steps).Some? && Orderly(steps, 0, b)
    ensures Secure(Exec(steps).value, b)
    decreases |steps|
  {
    if steps != [] {
      var n := |steps| - 1;
      OrderlyPrefix(steps, b);
      AddressExclusivity(steps[..n], b);
      RunConsistent(steps[..n]);
      ApplyKeepsSecure(Exec(steps[..n]).value, steps[n], b);
    }
  }

  /** For BTC and LTC, whose client never rejects, and for any coin in runs without such replies, quiet key updates
      suffice. */
  lemma {:induction false} ExclusivityWithoutRejections(steps: seq<Step>, b: BaseCoin)
    requires Exec(steps).Some? && QuietRun(steps, b) && (Utxo(b) || NeverRejected(steps, b))
    ensures ExclusiveOk(Exec(steps).value.db, b, Mem(Exec(steps).value, b))
  {
    WithoutRejections(steps, b);
    QuietIsOrderly(steps, b);
    AddressExclusivity(steps, b);
  }

  // ----- Memory agrees with the database -----

  ghost predicate StrandsIn(s: System, step: Step, b: BaseCoin) {
    step.Handle? && step.base == b && Enabled(s, step) && Strands(At(s, b), step.act)
  }

  /** No entry of b was lost since the restart at position r. */
  ghost predicate NothingStranded(steps: seq<Step>, r: nat, b: BaseCoin) {
    && r < |steps| && steps[r].Restart?
    && forall j :: r < j < |steps| && Exec(steps[..j]).Some? ==> !StrandsIn(Exec(steps[..j]).value, steps[j], b)
  }

  lemma {:induction false} ApplyTracks(s: System, step: Step, b: BaseCoin)
    requires Consistent(s) && Secure(s, b) && Enabled(s, step)
    requires !step.Restart? ==> (b in s.procs ==> AllTracked(s.db, b, Mem(s, b))) && !StrandsIn(s, step, b)
    ensures b in Apply(s, step).procs ==> AllTracked(Apply(s, step).db, b, Mem(Apply(s, step), b))
  {
    var s' := Apply(s, step);
    match step
    case Handle(c, act) =>
      if c == b {
        DoTracks(At(s, b), b, act);
      } else if b in s.procs {
        Frames.DoFrame(At(s, c), c, act, b);
        forall id | PendingIn(s'.db, b, id)
          ensures TrackedAs(s'.db, Mem(s', b), id)
        {
          assert Owns(s.db, b, id) <==> Owns(s'.db, b, id);
          assert PendingIn(s.db, b, id) && TrackedAs(s.db, Mem(s, b), id);
        }
      }
    case Observe(_, _) =>
    case UpdateCryptoKeys(_, _) =>
      if b in s.procs {
        forall id | PendingIn(s'.db, b, id)
          ensures TrackedAs(s'.db, Mem(s', b), id)
        {
          assert PendingIn(s.db, b, id) && TrackedAs(s.db, Mem(s, b), id);
        }
      }
    case Restart(now, live, rows) =>
      Frames.ShiftKeepsRows(s.db, now);
      Claims.ShiftKeepsUse(s.db, now, b);
      if b in live {
        assert Exclusive(s'.db, b) by {
          forall i, j | PendingIn(s'.db, b, i) && PendingIn(s'.db, b, j) && i != j
            ensures s'.db.invoices[i].address != s'.db.invoices[j].address
          {
            assert PendingIn(s.db, b, i) && PendingIn(s.db, b, j);
          }
        }
        LoadTracksAll(s'.db, b, rows);
      }
  }

  lemma StrandedPrefix(steps: seq<Step>, r: nat, b: BaseCoin)
    requires NothingStranded(steps, r, b) && r < |steps| - 1
    ensures NothingStranded(steps[..|steps| - 1], r, b)
  {
    var init := steps[..|steps| - 1];
    forall j | r < j < |init| && Exec(init[..j]).Some?
      ensures !StrandsIn(Exec(init[..j]).value, init[j], b)
    {
      assert init[..j] == steps[..j];
    }
  }

  /** What the premises of a run say about its last step. */
  lemma LastStep(steps: seq<Step>, r: nat, b: BaseCoin)
    requires Exec(steps).Some? && NothingStranded(steps, r, b)
    ensures var (s, step) := (Exec(steps[..|steps| - 1]).value, steps[|steps| - 1]);
            Enabled(s, step) && (if r < |steps| - 1 then !StrandsIn(s, step, b) else step.Restart?)
  {
  }

  lemma LastTracks(steps: seq<Step>, r: nat, b: BaseCoin)
    requires Exec(steps).Some? && NothingStranded(steps, r, b)
    requires var s := Exec(steps[..|steps| - 1]).value;
             && Consistent(s) && Secure(s, b)
             && (r < |steps| - 1 && b in s.procs ==> AllTracked(s.db, b, Mem(s, b)))
    ensures b in Exec(steps).value.procs ==> AllTracked(Exec(steps).value.db, b, Mem(Exec(steps).value, b))
  {
    LastStep(steps, r, b);
    ApplyTracks(Exec(steps[..|steps| - 1]).value, steps[|steps| - 1], b);
  }

  lemma {:induction false} RunTracks(steps: seq<Step>, r: nat, b: BaseCoin)
    requires Exec(steps).Some? && Orderly(steps, 0, b) && NothingStranded(steps, r, b)
    ensures b in Exec(steps).value.procs ==> AllTracked(Exec(steps).value.db, b, Mem(Exec(steps).value, b))
    decreases |steps|
  {
    var n := |steps| - 1;
    OrderlyPrefix(steps, b);
    RunConsistent(steps[..n]);
    AddressExclusivity(steps[..n], b);
    if r < n {
      StrandedPrefix(steps, r, b);
      RunTracks(steps[..n], r, b);
    }
    LastTracks(steps, r, b);
  }

  /** Memory agrees with the database, for every coin: every entry is keyed by its own address and equals its row, which
      is pending, and its timer is armed. */
  lemma EntriesAgree(steps: seq<Step>, b: BaseCoin)
    requires Exec(steps).Some? && b in Exec(steps).value.procs
    ensures var s := Exec(steps).value;
            forall a :: a in s.procs[b].pending ==>
              EntryOk(s.db, b, s.procs[b], a) && Armed(s.procs[b], s.procs[b].pending[a].id)
  {
    RunConsistent(steps);
    var s := Exec(steps).value;
    assert MemOk(s.db, b, Mem(s, b));
  }

  /** One timer per invoice: a creation registers an id that has none (for restarts see Recovery.FirstTimer). */
  lemma FirstTimer(steps: seq<Step>, b: BaseCoin, act: Act)
    requires Exec(steps).Some? && act.DoCreate? && Enabled(Exec(steps).value, Handle(b, act))
    ensures act.id !in Mem(Exec(steps).value, b).timers
  {
    RunConsistent(steps);
    var s := Exec(steps).value;
    assert act.id in Mem(s, b).timers ==> TimerOk(s.db, b, Mem(s, b), act.id);
  }

  /** The converse, over orderly runs that stranded nothing of the coin since the last restart: an invoice is pending
      exactly if it is tracked. If nothing was rejected either, exactly if its timer is armed. */
  lemma {:induction false} MemoryAgrees(steps: seq<Step>, r: nat, b: BaseCoin)
    requires Exec(steps).Some? && b in Exec(steps).value.procs
    requires Orderly(steps, 0, b) && NothingStranded(steps, r, b)
    ensures var s := Exec(steps).value;
            forall id :: Owns(s.db, b, id) ==>
              && (IsPending(s.db.invoices[id].status) <==> TrackedAs(s.db, s.procs[b], id))
              && (IsPending(s.db.invoices[id].status) ==> Armed(s.procs[b], id))
              && (Unrejected(steps, b) && Armed(s.procs[b], id) ==> IsPending(s.db.invoices[id].status))
  {
    RunConsistent(steps);
    RunTracks(steps, r, b);
    EntriesAgree(steps, b);
    var s := Exec(steps).value;
    forall id | Owns(s.db, b, id)
      ensures IsPending(s.db.invoices[id].status) <==> TrackedAs(s.db, s.procs[b], id)
      ensures IsPending(s.db.invoices[id].status) ==> Armed(s.procs[b], id)
      ensures Unrejected(steps, b) && Armed(s.procs[b], id) ==> IsPending(s.db.invoices[id].status)
    {
      assert RowOk(s.db, id);
      if PendingIn(s.db, b, id) {
        assert TrackedAs(s.db, Mem(s, b), id) && EntryOk(s.db, b, Mem(s, b), s.db.invoices[id].address);
      }
      if TrackedAs(s.db, s.procs[b], id) {
        assert EntryOk(s.db, b, Mem(s, b), s.db.invoices[id].address);
      }
      if Unrejected(steps, b) {
        RunPrompt(steps, b);
      }
    }
  }
}
