/** Exclusivity under the simple premise: every key update that takes effect brings, to a coin or to one sharing its
    encoding, a key that no earlier one of these coins did. */
module FreshKeys {
  import opened Domain
  import opened Lifecycle
  import opened Invariants
  import opened PaymentSystem
  import P = Pool
  import Frames
  import Steps
  import Claims

  /** The step is a key update that takes effect after the run. */
  ghost predicate Accepted(before: seq<Step>, step: Step) {
    step.UpdateCryptoKeys? && Exec(before).Some?
    && P.UpdateEach(Exec(before).value.db.pool, step.user, step.requests).Some?
  }

  /** It leaves a coin with the encoding that key. */
  ghost predicate Brings(before: seq<Step>, step: Step, b: BaseCoin, key: Key) {
    Accepted(before, step) && P.KeyFor(step.requests, b) == Some(key)
  }

  /** Some update in the run brought the key to a coin with the encoding. */
  ghost predicate Brought(steps: seq<Step>, f: Format, key: Key) {
    exists j, b :: 0 <= j < |steps| && FormatOf(b) == f && Brings(steps[..j], steps[j], b, key)
  }

  /** The keys of one request are new, and different from each other. */
  ghost predicate FreshStep(before: seq<Step>, step: Step, f: Format) {
    && (forall b, key :: FormatOf(b) == f && Brings(before, step, b, key) ==> !Brought(before, f, key))
    && (forall b, c, key ::
          FormatOf(b) == FormatOf(c) == f && Brings(before, step, b, key) && Brings(before, step, c, key) ==> b == c)
  }

  ghost predicate FreshRun(steps: seq<Step>, f: Format) {
    forall j :: 0 <= j < |steps| ==> FreshStep(steps[..j], steps[j], f)
  }

  /** Current keys, invoice addresses and outstanding releases of the coin all come from brought keys. */
  ghost predicate FromBrought(s: System, b: BaseCoin, steps: seq<Step>) {
    && (forall u :: (u, b) in s.db.pool.keys ==> Brought(steps, FormatOf(b), s.db.pool.keys[(u, b)].key))
    && (forall id :: Owns(s.db, b, id) ==> Brought(steps, FormatOf(b), s.db.invoices[id].address.key))
    && (forall a :: a in Mem(s, b).releases ==> Brought(steps, FormatOf(b), a.key))
  }

  lemma BroughtGrows(steps: seq<Step>, f: Format, key: Key)
    requires steps != [] && Brought(steps[..|steps| - 1], f, key)
    ensures Brought(steps, f, key)
  {
    var init := steps[..|steps| - 1];
    var j, b :| 0 <= j < |init| && FormatOf(b) == f && Brings(init[..j], init[j], b, key);
    assert init[..j] == steps[..j];
    assert Brings(steps[..j], steps[j], b, key);
  }

  // ----- Steps of a processor -----

  lemma CreatedAddress(l: Local, b: BaseCoin, act: Act)
    requires RowsOk(l.db) && ActEnabled(l, act) && Claims.Allocated(l, b, act).Some?
    ensures exists u :: (u, b) in l.db.pool.keys
              && l.db.pool.keys[(u, b)].key == Claims.Allocated(l, b, act).value.key
  {
    Steps.AllocateClaims(l.db.pool, act.req.user, act.req.coin, b, act.pick);
  }

  lemma RowsFromBrought(s: System, b: BaseCoin, act: Act, steps: seq<Step>, id: InvoiceId)
    requires Consistent(s) && Enabled(s, Handle(b, act)) && FromBrought(s, b, steps)
    requires Owns(Do(At(s, b), b, act).db, b, id)
    ensures Brought(steps, FormatOf(b), Do(At(s, b), b, act).db.invoices[id].address.key)
  {
    var l := At(s, b);
    var l' := Do(l, b, act);
    if id in l.db.invoices {
      Steps.DoKeepsInv(l, b, act);
      assert RowKept(l.db.invoices[id], l'.db.invoices[id]);
      assert Owns(l.db, b, id);
    } else {
      Claims.NewRowIsCreated(l, b, act, id);
      CreatedAddress(l, b, act);
    }
  }

  lemma ReleasesFromBrought(s: System, b: BaseCoin, act: Act, steps: seq<Step>, a: Address)
    requires Consistent(s) && Enabled(s, Handle(b, act)) && FromBrought(s, b, steps)
    requires a in Do(At(s, b), b, act).mem.releases
    ensures Brought(steps, FormatOf(b), a.key)
  {
    Claims.ReleasesWereClaimed(At(s, b), b, act, a);
    if i :| PendingIn(s.db, b, i) && s.db.invoices[i].address == a {
      assert Owns(s.db, b, i);
    }
  }

  lemma {:induction false} DoFromBrought(s: System, b: BaseCoin, act: Act, steps: seq<Step>)
    requires Consistent(s) && Enabled(s, Handle(b, act)) && FromBrought(s, b, steps)
    ensures FromBrought(Apply(s, Handle(b, act)), b, steps)
  {
    var l' := Do(At(s, b), b, act);
    Claims.DoKeepsKeys(At(s, b), b, act);
    forall id | Owns(l'.db, b, id)
      ensures Brought(steps, FormatOf(b), l'.db.invoices[id].address.key)
    {
      RowsFromBrought(s, b, act, steps, id);
    }
    forall a | a in l'.mem.releases
      ensures Brought(steps, FormatOf(b), a.key)
    {
      ReleasesFromBrought(s, b, act, steps, a);
    }
  }

  lemma {:induction false} OtherFromBrought(s: System, c: BaseCoin, act: Act, b: BaseCoin, steps: seq<Step>)
    requires Consistent(s) && Enabled(s, Handle(c, act)) && c != b && FromBrought(s, b, steps)
    ensures FromBrought(Apply(s, Handle(c, act)), b, steps)
  {
    Claims.DoKeepsKeys(At(s, c), c, act);
    Frames.DoFrame(At(s, c), c, act, b);
    SameAddressesFromBrought(s, Apply(s, Handle(c, act)), steps, b);
  }

  // ----- Key updates and restarts -----

  /** After a request a user has the key he had, or one that the request brought. */
  lemma KeyAfter(p: P.Pool, user: UserId, rs: seq<P.KeyRequest>, u: UserId, b: BaseCoin)
    requires (u, b) in P.UpdateKeys(p, user, rs).keys
    ensures var key := P.UpdateKeys(p, user, rs).keys[(u, b)].key;
            || ((u, b) in p.keys && p.keys[(u, b)].key == key)
            || (u == user && P.UpdateEach(p, user, rs).Some? && P.KeyFor(rs, b) == Some(key))
  {
    if P.UpdateEach(p, user, rs).Some? {
      if u == user && P.KeyFor(rs, b).Some? {
        P.UpdateEachWipes(p, user, b, rs);
      } else {
        P.UpdateEachFrame(p, user, rs, u, b);
      }
    }
  }

  /** Only an update brings keys, and only it changes them. */
  lemma UpdateFromBrought(steps: seq<Step>, b: BaseCoin)
    requires steps != [] && steps[|steps| - 1].UpdateCryptoKeys? && Exec(steps).Some?
    requires FromBrought(Exec(steps[..|steps| - 1]).value, b, steps)
    ensures FromBrought(Exec(steps).value, b, steps)
  {
    var n := |steps| - 1;
    var s, s', step := Exec(steps[..n]).value, Exec(steps).value, steps[n];
    assert s'.db.invoices == s.db.invoices && Mem(s', b) == Mem(s, b);
    forall u | (u, b) in s'.db.pool.keys
      ensures Brought(steps, FormatOf(b), s'.db.pool.keys[(u, b)].key)
    {
      KeyAfter(s.db.pool, step.user, step.requests, u, b);
      if !((u, b) in s.db.pool.keys && s.db.pool.keys[(u, b)].key == s'.db.pool.keys[(u, b)].key) {
        assert Brings(steps[..n], steps[n], b, s'.db.pool.keys[(u, b)].key);
      }
    }
  }

  /** No new invoice of the coin, no new key and no new release. */
  lemma SameAddressesFromBrought(s: System, s': System, steps: seq<Step>, b: BaseCoin)
    requires FromBrought(s, b, steps) && Steps.SameKeys(s.db.pool, s'.db.pool)
    requires forall id :: Owns(s'.db, b, id) ==>
               Owns(s.db, b, id) && s'.db.invoices[id].address == s.db.invoices[id].address
    requires forall a :: a in Mem(s', b).releases ==> a in Mem(s, b).releases
    ensures FromBrought(s', b, steps)
  {
  }

  lemma RestartFromBrought(s: System, step: Step, steps: seq<Step>, b: BaseCoin)
    requires Consistent(s) && step.Restart? && Enabled(s, step) && FromBrought(s, b, steps)
    ensures FromBrought(Apply(s, step), b, steps)
  {
    var s' := Apply(s, step);
    Frames.ShiftKeepsRows(s.db, step.now);
    Frames.LoadKeepsMem(s'.db, b, step.rows);
    SameAddressesFromBrought(s, s', steps, b);
  }

  // ----- Runs -----

  lemma ApplyFromBrought(steps: seq<Step>, b: BaseCoin)
    requires steps != [] && Exec(steps).Some? && Consistent(Exec(steps[..|steps| - 1]).value)
    requires FromBrought(Exec(steps[..|steps| - 1]).value, b, steps)
    ensures FromBrought(Exec(steps).value, b, steps)
  {
    if steps[|steps| - 1].UpdateCryptoKeys? {
      UpdateFromBrought(steps, b);
    } else {
      OtherStepFromBrought(Exec(steps[..|steps| - 1]).value, steps[|steps| - 1], steps, b);
    }
  }

  lemma OtherStepFromBrought(s: System, step: Step, steps: seq<Step>, b: BaseCoin)
    requires Consistent(s) && Enabled(s, step) && !step.UpdateCryptoKeys? && FromBrought(s, b, steps)
    ensures FromBrought(Apply(s, step), b, steps)
  {
    match step
    case Handle(c, act) =>
      if c == b {
        DoFromBrought(s, b, act, steps);
      } else {
        OtherFromBrought(s, c, act, b, steps);
      }
    case Observe(_, _) => SameAddressesFromBrought(s, Apply(s, step), steps, b);
    case Restart(_, _, _) => RestartFromBrought(s, step, steps, b);
  }

  lemma FromBroughtGrows(s: System, b: BaseCoin, steps: seq<Step>)
    requires steps != [] && FromBrought(s, b, steps[..|steps| - 1])
    ensures FromBrought(s, b, steps)
  {
    forall key | Brought(steps[..|steps| - 1], FormatOf(b), key)
      ensures Brought(steps, FormatOf(b), key)
    {
      BroughtGrows(steps, FormatOf(b), key);
    }
  }

  lemma {:induction false} RunFromBrought(steps: seq<Step>, b: BaseCoin)
    requires Exec(steps).Some?
    ensures FromBrought(Exec(steps).value, b, steps)
    decreases |steps|
  {
    if steps != [] {
      var n := |steps| - 1;
      RunFromBrought(steps[..n], b);
      RunConsistent(steps[..n]);
      FromBroughtGrows(Exec(steps[..n]).value, b, steps);
      ApplyFromBrought(steps, b);
    }
  }

  // ----- Fresh keys of ETH and BNB are disjoint -----

  lemma UpdateKeepsApart(before: seq<Step>, step: Step)
    requires Exec(before).Some? && step.UpdateCryptoKeys? && FreshStep(before, step, FEvm)
    requires var s := Exec(before).value;
             P.EvmKeysDisjoint(s.db.pool) && FromBrought(s, ETH, before) && FromBrought(s, BNB, before)
    ensures P.EvmKeysDisjoint(Apply(Exec(before).value, step).db.pool)
  {
    var p, p' := Exec(before).value.db.pool, Apply(Exec(before).value, step).db.pool;
    forall u: UserId, u': UserId | (u, ETH) in p'.keys && (u', BNB) in p'.keys
      ensures p'.keys[(u, ETH)].key != p'.keys[(u', BNB)].key
    {
      KeyAfter(p, step.user, step.requests, u, ETH);
      KeyAfter(p, step.user, step.requests, u', BNB);
      var k, k' := p'.keys[(u, ETH)].key, p'.keys[(u', BNB)].key;
      assert Brings(before, step, ETH, k) || Brought(before, FEvm, k);
      assert Brings(before, step, BNB, k') || Brought(before, FEvm, k');
    }
  }

  lemma {:induction false} RunApart(steps: seq<Step>)
    requires Exec(steps).Some? && FreshRun(steps, FEvm)
    ensures P.EvmKeysDisjoint(Exec(steps).value.db.pool)
    decreases |steps|
  {
    if steps != [] {
      var n := |steps| - 1;
      var s := Exec(steps[..n]).value;
      FreshPrefix(steps, FEvm);
      RunApart(steps[..n]);
      RunConsistent(steps[..n]);
      match steps[n]
      case Handle(c, act) => Claims.DoKeepsKeys(At(s, c), c, act);
      case Observe(_, _) =>
      case UpdateCryptoKeys(user, rs) =>
        RunFromBrought(steps[..n], ETH);
        RunFromBrought(steps[..n], BNB);
        assert FreshStep(steps[..n], steps[n], FEvm);
        UpdateKeepsApart(steps[..n], steps[n]);
      case Restart(_, _, _) =>
    }
  }

  lemma FreshPrefix(steps: seq<Step>, f: Format)
    requires FreshRun(steps, f) && steps != []
    ensures FreshRun(steps[..|steps| - 1], f)
  {
    var init := steps[..|steps| - 1];
    forall j | 0 <= j < |init|
      ensures FreshStep(init[..j], init[j], f)
    {
      assert init[..j] == steps[..j];
    }
  }

  lemma FreshPrefixes(steps: seq<Step>, f: Format, j: nat)
    requires FreshRun(steps, f) && j <= |steps|
    ensures FreshRun(steps[..j], f)
  {
    forall k | 0 <= k < j
      ensures FreshStep(steps[..j][..k], steps[..j][k], f)
    {
      assert steps[..j][..k] == steps[..k];
    }
  }

  // ----- Fresh keys are quiet -----

  /** Claimed addresses and those of timers derive from brought keys. */
  lemma ClaimedWereBrought(steps: seq<Step>, c: BaseCoin)
    requires Exec(steps).Some?
    ensures forall a :: Claimed(Exec(steps).value.db, c, Mem(Exec(steps).value, c), a) ==>
                          Brought(steps, FormatOf(c), a.key)
    ensures forall id :: Armed(Mem(Exec(steps).value, c), id) ==>
                           Brought(steps, FormatOf(c), Mem(Exec(steps).value, c).timers[id].address.key)
  {
    var s := Exec(steps).value;
    RunFromBrought(steps, c);
    RunConsistent(steps);
    forall a | Claimed(s.db, c, Mem(s, c), a)
      ensures Brought(steps, FormatOf(c), a.key)
    {
      if k :| PendingIn(s.db, c, k) && s.db.invoices[k].address == a {
        assert Owns(s.db, c, k);
      }
    }
    forall id | Armed(Mem(s, c), id)
      ensures Brought(steps, FormatOf(c), Mem(s, c).timers[id].address.key)
    {
      assert TimerOk(s.db, c, Mem(s, c), id);
    }
  }

  lemma FreshUpdateIsQuiet(steps: seq<Step>, step: Step, b: BaseCoin)
    requires Accepted(steps, step) && P.KeyFor(step.requests, b).Some? && FreshStep(steps, step, FormatOf(b))
    ensures Quiet(Exec(steps).value, b, P.KeyFor(step.requests, b).value)
  {
    assert Brings(steps, step, b, P.KeyFor(step.requests, b).value);
    forall c | FormatOf(c) == FormatOf(b)
      ensures Claims.QuietFor(Exec(steps).value.db, c, Mem(Exec(steps).value, c), P.KeyFor(step.requests, b).value)
    {
      ClaimedWereBrought(steps, c);
    }
    ClaimedWereBrought(steps, b);
  }

  /** A key never brought before is quiet: no pending invoice, outstanding release or armed timer uses an address
      derived from it. */
  lemma FreshIsQuiet(steps: seq<Step>, b: BaseCoin)
    requires FreshRun(steps, FormatOf(b))
    ensures QuietRun(steps, b)
  {
    forall j | 0 <= j < |steps| && Exec(steps[..j]).Some?
      ensures QuietStep(Exec(steps[..j]).value, steps[j], b)
    {
      FreshPrefixes(steps, FormatOf(b), j);
      if FormatOf(b) == FEvm {
        RunApart(steps[..j]);
      }
      assert FreshStep(steps[..j], steps[j], FormatOf(b));
      if Accepted(steps[..j], steps[j]) && P.KeyFor(steps[j].requests, b).Some? {
        FreshUpdateIsQuiet(steps[..j], steps[j], b);
      }
    }
  }

  /** Address exclusivity when every key update brings keys never used before: for BTC and LTC always, for the other
      coins in runs without rejections. */
  lemma {:induction false} ExclusivityWithFreshKeys(steps: seq<Step>, b: BaseCoin)
    requires Exec(steps).Some? && FreshRun(steps, FormatOf(b)) && (Utxo(b) || NeverRejected(steps, b))
    ensures ExclusiveOk(Exec(steps).value.db, b, Mem(Exec(steps).value, b))
  {
    FreshIsQuiet(steps, b);
    ExclusivityWithoutRejections(steps, b);
  }
}
