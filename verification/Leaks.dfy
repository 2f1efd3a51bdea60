/** No address is leaked: an occupied address belongs to a pending invoice or to a release that has not run, except
    after a release that failed or was lost in a crash. */
module Leaks {
  import opened Domain
  import opened Lifecycle
  import opened Invariants
  import opened PaymentSystem
  import P = Pool
  import Frames
  import Steps
  import Claims

  predicate OccupiedBy(p: P.Pool, b: BaseCoin, a: Address) {
    a in p.addresses && p.addresses[a].coin == b && p.addresses[a].occupied
  }

  ghost predicate NoLeak(d: Db, b: BaseCoin, m: Memory) {
    forall a :: OccupiedBy(d.pool, b, a) ==> Claimed(d, b, m, a)
  }

  /** The last release of an occupied address that no pending invoice uses fails. */
  ghost predicate LeakedBy(l: Local, b: BaseCoin, act: Act) {
    && act.DoRelease? && !act.sql
    && OccupiedBy(l.db.pool, b, act.a) && l.mem.releases[act.a] == 1 && !InUse(l.db, b, act.a)
  }

  // ----- Steps of the processor -----

  /** No release is dropped, and the pending invoice stays pending at its address or its address gets a release. */
  predicate HandsOver(l: Local, b: BaseCoin, l': Local, i: InvoiceId)
    requires i in l.db.invoices
  {
    && l.mem.releases <= l'.mem.releases && i in l'.db.invoices
    && (PendingIn(l'.db, b, i) || l.db.invoices[i].address in l'.mem.releases)
    && l'.db.invoices[i].address == l.db.invoices[i].address
  }

  lemma ExpireReleases(l: Local, b: BaseCoin, id: InvoiceId, a: Address, sql: bool, i: InvoiceId)
    requires id in l.db.invoices && l.db.invoices[id].address == a
    requires PendingIn(l.db, b, i)
    ensures HandsOver(l, b, Expire(l, id, a, sql), i)
  {
  }

  lemma ConfirmReleases(l: Local, b: BaseCoin, a: Address, reply: Reply, sql: bool, i: InvoiceId)
    requires a in l.mem.pending && EntryOk(l.db, b, l.mem, a) && PendingIn(l.db, b, i)
    ensures HandsOver(l, b, Confirm(l, a, reply, sql), i)
  {
    var inv := l.mem.pending[a];
    if inv.txId.Some? && reply.Rejected? {
      ExpireReleases(l, b, inv.id, inv.address, sql, i);
    }
  }

  lemma MarkClaims(l: Local, b: BaseCoin, a: Address, amount: nat, tx: TxId, sql: bool, i: InvoiceId)
    requires a in l.mem.pending && EntryOk(l.db, b, l.mem, a) && PendingIn(l.db, b, i)
    ensures var l1 := MarkMempool(l, a, amount, tx, sql);
            && l1.mem.releases == l.mem.releases && PendingIn(l1.db, b, i)
            && l1.db.invoices[i].address == l.db.invoices[i].address
  {
  }

  lemma TxReleases(l: Local, b: BaseCoin, act: Act, i: InvoiceId)
    requires Inv(l, b) && ActEnabled(l, act) && act.DoCheckTx? && PendingIn(l.db, b, i)
    ensures HandsOver(l, b, Do(l, b, act), i)
  {
    var inv := l.mem.pending[act.a];
    assert EntryOk(l.db, b, l.mem, act.a);
    if act.verdict.Some? && inv.required <= act.verdict.value && inv.status == PENDING {
      MarkClaims(l, b, act.a, act.verdict.value, act.tx, act.markSql, i);
      Steps.MarkKeepsMem(l, b, act.a, act.verdict.value, act.tx, act.markSql);
      var l1 := MarkMempool(l, act.a, act.verdict.value, act.tx, act.markSql);
      assert EntryOk(l1.db, b, l1.mem, act.a);
      ConfirmReleases(l1, b, act.a, act.reply, act.sql, i);
      assert HandsOver(l, b, Block(l, l1.mem.pending[act.a].address), i);
    }
  }

  /** Leaving the pending states hands the address to a release. */
  lemma {:induction false} CheckReleases(l: Local, b: BaseCoin, act: Act, i: InvoiceId)
    requires Inv(l, b) && ActEnabled(l, act) && !act.DoRelease? && !act.DoCreate? && PendingIn(l.db, b, i)
    ensures HandsOver(l, b, Do(l, b, act), i)
  {
    match act
    case DoCheckTx(_, _, _, _, _, _) => TxReleases(l, b, act, i);
    case DoCheckBlock(a, reply, sql) =>
      assert EntryOk(l.db, b, l.mem, a);
      ConfirmReleases(l, b, a, reply, sql, i);
    case DoFire(id, sql) =>
      var t := l.mem.timers[id];
      assert TimerOk(l.db, b, l.mem, id);
      ExpireReleases(TimerExit(l, id), b, id, t.address, sql && !t.cancelled, i);
    case DoTimerExit(_) =>
  }

  lemma ClaimsKept(l: Local, b: BaseCoin, act: Act, a: Address)
    requires Inv(l, b) && ActEnabled(l, act) && !act.DoRelease? && !act.DoCreate?
    requires Claimed(l.db, b, l.mem, a)
    ensures var l' := Do(l, b, act); Claimed(l'.db, b, l'.mem, a)
  {
    var l' := Do(l, b, act);
    if i :| PendingIn(l.db, b, i) && l.db.invoices[i].address == a {
      CheckReleases(l, b, act, i);
    } else {
      ReleasesKept(l, b, act);
    }
  }

  lemma ConfirmKeepsReleases(l: Local, a: Address, reply: Reply, sql: bool)
    requires a in l.mem.pending
    ensures l.mem.releases <= Confirm(l, a, reply, sql).mem.releases
  {
  }

  lemma ReleasesKept(l: Local, b: BaseCoin, act: Act)
    requires ActEnabled(l, act) && !act.DoRelease? && !act.DoCreate?
    ensures l.mem.releases <= Do(l, b, act).mem.releases
  {
    match act
    case DoCheckTx(a, tx, verdict, markSql, reply, sql) =>
      if verdict.Some? && l.mem.pending[a].required <= verdict.value && l.mem.pending[a].status == PENDING {
        ConfirmKeepsReleases(MarkMempool(l, a, verdict.value, tx, markSql), a, reply, sql);
      }
    case DoCheckBlock(a, reply, sql) => ConfirmKeepsReleases(l, a, reply, sql);
    case DoFire(_, _) =>
    case DoTimerExit(_) =>
  }

  lemma CreateLeaksNone(l: Local, b: BaseCoin, act: Act)
    requires Inv(l, b) && act.DoCreate? && ActEnabled(l, act) && NoLeak(l.db, b, l.mem)
    ensures var l' := Do(l, b, act); NoLeak(l'.db, b, l'.mem)
  {
    var l' := Do(l, b, act);
    var r := P.Allocate(l.db.pool, act.req.user, act.req.coin, b, act.pick);
    if Home(act.req.coin) == Some(b) && r.Some? {
      forall a | OccupiedBy(l'.db.pool, b, a)
        ensures Claimed(l'.db, b, l'.mem, a)
      {
        if a == r.value.address {
          assert PendingIn(l'.db, b, act.id) && l'.db.invoices[act.id].address == a;
        } else {
          assert OccupiedBy(l.db.pool, b, a) && Claimed(l.db, b, l.mem, a);
          if i :| PendingIn(l.db, b, i) && l.db.invoices[i].address == a {
            assert PendingIn(l'.db, b, i) && l'.db.invoices[i].address == a;
          }
        }
      }
    }
  }

  lemma ReleaseLeaks(l: Local, b: BaseCoin, act: Act)
    requires act.DoRelease? && ActEnabled(l, act) && NoLeak(l.db, b, l.mem)
    ensures var l' := Do(l, b, act); NoLeak(l'.db, b, l'.mem) <==> !LeakedBy(l, b, act)
  {
    var l' := Do(l, b, act);
    forall a
      ensures InUse(l'.db, b, a) <==> InUse(l.db, b, a)
    {
      assert l'.db.invoices == l.db.invoices;
    }
    if LeakedBy(l, b, act) {
      assert OccupiedBy(l'.db.pool, b, act.a) && !Claimed(l'.db, b, l'.mem, act.a);
    } else {
      forall a | OccupiedBy(l'.db.pool, b, a)
        ensures Claimed(l'.db, b, l'.mem, a)
      {
        assert OccupiedBy(l.db.pool, b, a) && Claimed(l.db, b, l.mem, a);
      }
    }
  }

  /** A step leaks an address exactly if it is the failing last release of one. */
  lemma DoLeaks(l: Local, b: BaseCoin, act: Act)
    requires Inv(l, b) && ActEnabled(l, act) && NoLeak(l.db, b, l.mem)
    ensures var l' := Do(l, b, act); NoLeak(l'.db, b, l'.mem) <==> !LeakedBy(l, b, act)
  {
    if act.DoRelease? {
      ReleaseLeaks(l, b, act);
    } else if act.DoCreate? {
      CreateLeaksNone(l, b, act);
    } else {
      Frames.PoolFrame(l, b, act);
      forall a | OccupiedBy(l.db.pool, b, a)
        ensures Claimed(Do(l, b, act).db, b, Do(l, b, act).mem, a)
      {
        ClaimsKept(l, b, act, a);
      }
    }
  }

  // ----- Steps of the system -----

  /** The step loses the only release of some occupied address: it fails, or a crash comes first. */
  ghost predicate LosesRelease(s: System, step: Step, b: BaseCoin) {
    match step
    case Handle(c, act) => c == b && LeakedBy(At(s, b), b, act)
    case Restart(_, _, _) => exists a :: OccupiedBy(s.db.pool, b, a) && !InUse(s.db, b, a)
    case _ => false
  }

  ghost predicate OccupiesLess(p: P.Pool, p': P.Pool, b: BaseCoin) {
    forall a :: OccupiedBy(p', b, a) ==> OccupiedBy(p, b, a)
  }

  lemma OtherOccupiesNone(l: Local, c: BaseCoin, act: Act, b: BaseCoin)
    requires ActEnabled(l, act) && c != b
    ensures OccupiesLess(l.db.pool, Do(l, c, act).db.pool, b)
  {
    if act.DoCreate? {
      var p := l.db.pool;
      if Home(act.req.coin) == Some(c) && P.HasFree(p, act.req.user, act.req.coin) {
        assert P.FreeFor(p, act.req.user, act.req.coin, act.pick);
      }
    } else if !act.DoRelease? {
      Frames.PoolFrame(l, c, act);
    }
  }

  lemma {:induction false} UpdateOccupiesNone(p: P.Pool, user: UserId, rs: seq<P.KeyRequest>, b: BaseCoin)
    requires P.UpdateEach(p, user, rs).Some?
    ensures OccupiesLess(p, P.UpdateEach(p, user, rs).value, b)
    decreases |rs|
  {
    if rs != [] {
      UpdateOccupiesNone(P.UpdateKey(p, user, rs[0]).value, user, rs[1..], b);
    }
  }

  lemma FrameLeaksNone(d: Db, d': Db, b: BaseCoin, m: Memory)
    requires NoLeak(d, b, m) && Frames.SameRows(d, d', b) && OccupiesLess(d.pool, d'.pool, b)
    ensures NoLeak(d', b, m)
  {
    forall a | OccupiedBy(d'.pool, b, a)
      ensures Claimed(d', b, m, a)
    {
      assert OccupiedBy(d.pool, b, a) && Claimed(d, b, m, a);
      if i :| PendingIn(d, b, i) && d.invoices[i].address == a {
        assert Owns(d', b, i) && PendingIn(d', b, i) && d'.invoices[i].address == a;
      }
    }
  }

  /** Without releases, only use by a pending invoice counts. */
  lemma ClaimedIsUsed(d: Db, b: BaseCoin, m: Memory, a: Address)
    requires m.releases == multiset{}
    ensures Claimed(d, b, m, a) <==> InUse(d, b, a)
  {
  }

  lemma RestartLeaks(s: System, step: Step, b: BaseCoin)
    requires Consistent(s) && step.Restart? && Enabled(s, step)
    ensures var s' := Apply(s, step); NoLeak(s'.db, b, Mem(s', b)) <==> !LosesRelease(s, step, b)
  {
    var s' := Apply(s, step);
    Frames.ShiftKeepsRows(s.db, step.now);
    Frames.LoadKeepsMem(s'.db, b, step.rows);
    Claims.ShiftKeepsUse(s.db, step.now, b);
    forall a
      ensures Claimed(s'.db, b, Mem(s', b), a) <==> InUse(s.db, b, a)
    {
      ClaimedIsUsed(s'.db, b, Mem(s', b), a);
    }
  }

  /** An address leaks exactly in a step that loses its last release. */
  lemma ApplyLeaks(s: System, step: Step, b: BaseCoin)
    requires Consistent(s) && Enabled(s, step) && NoLeak(s.db, b, Mem(s, b))
    ensures var s' := Apply(s, step); NoLeak(s'.db, b, Mem(s', b)) <==> !LosesRelease(s, step, b)
  {
    var s' := Apply(s, step);
    match step
    case Handle(c, act) =>
      if c == b {
        DoLeaks(At(s, b), b, act);
      } else {
        Frames.DoFrame(At(s, c), c, act, b);
        OtherOccupiesNone(At(s, c), c, act, b);
        FrameLeaksNone(s.db, s'.db, b, Mem(s, b));
      }
    case Observe(_, _) =>
    case UpdateCryptoKeys(user, rs) =>
      if P.UpdateEach(s.db.pool, user, rs).Some? {
        UpdateOccupiesNone(s.db.pool, user, rs, b);
      }
      FrameLeaksNone(s.db, s'.db, b, Mem(s, b));
    case Restart(now, live, rows) => RestartLeaks(s, step, b);
  }

  ghost predicate LossFree(steps: seq<Step>, b: BaseCoin) {
    forall j :: 0 <= j < |steps| && Exec(steps[..j]).Some? ==> !LosesRelease(Exec(steps[..j]).value, steps[j], b)
  }

  lemma LossFreePrefix(steps: seq<Step>, b: BaseCoin)
    requires LossFree(steps, b) && steps != []
    ensures LossFree(steps[..|steps| - 1], b)
  {
    var init := steps[..|steps| - 1];
    forall j | 0 <= j < |init| && Exec(init[..j]).Some?
      ensures !LosesRelease(Exec(init[..j]).value, init[j], b)
    {
      assert init[..j] == steps[..j];
    }
  }

  /** For every coin: in a run that loses no release, each occupied address belongs to a pending invoice or to a release
      that will free it. */
  lemma {:induction false} OccupiedAreClaimed(steps: seq<Step>, b: BaseCoin)
    requires Exec(steps).Some? && LossFree(steps, b)
    ensures NoLeak(Exec(steps).value.db, b, Mem(Exec(steps).value, b))
    decreases |steps|
  {
    if steps != [] {
      var n := |steps| - 1;
      LossFreePrefix(steps, b);
      OccupiedAreClaimed(steps[..n], b);
      RunConsistent(steps[..n]);
      ApplyLeaks(Exec(steps[..n]).value, steps[n], b);
    }
  }

  /** With exclusivity: an address of the coin in the table is occupied exactly while it is claimed. */
  lemma {:induction false} OccupiedExactly(steps: seq<Step>, b: BaseCoin, a: Address)
    requires Exec(steps).Some? && LossFree(steps, b) && Orderly(steps, 0, b)
    requires var s := Exec(steps).value; a in s.db.pool.addresses && s.db.pool.addresses[a].coin == b
    ensures var s := Exec(steps).value;
            s.db.pool.addresses[a].occupied <==> Claimed(s.db, b, Mem(s, b), a)
  {
    var s := Exec(steps).value;
    OccupiedAreClaimed(steps, b);
    AddressExclusivity(steps, b);
    RunConsistent(steps);
    Claims.RowIsAlive(s.db.pool, b, a);
    if s.db.pool.addresses[a].occupied {
      assert OccupiedBy(s.db.pool, b, a);
    }
  }
}
