/** How claims on addresses change: which steps make new ones, and what other processors, key updates and restarts do to
    them. */
module Claims {
  import opened Domain
  import opened Lifecycle
  import opened Invariants
  import P = Pool
  import Steps
  import Frames

  // ----- Own steps -----

  lemma ConfirmReleasesClaimed(l: Local, b: BaseCoin, at: Address, reply: Reply, sql: bool, a: Address)
    requires at in l.mem.pending && EntryOk(l.db, b, l.mem, at) && a in Confirm(l, at, reply, sql).mem.releases
    ensures Claimed(l.db, b, l.mem, a)
  {
    var e := l.mem.pending[at];
    assert PendingIn(l.db, b, e.id) && l.db.invoices[e.id].address == at;
  }

  lemma AfterMarkReleases(l: Local, l1: Local, b: BaseCoin, at: Address, reply: Reply, sql: bool, a: Address)
    requires at in l1.mem.pending && EntryOk(l1.db, b, l1.mem, at) && l1.mem.releases == l.mem.releases
    requires a in AfterMark(l, l1, at, reply, sql).mem.releases
    ensures a == at || a in l.mem.releases
  {
  }

  lemma CheckTxReleasesClaimed(l: Local, b: BaseCoin, act: Act, a: Address)
    requires Inv(l, b) && act.DoCheckTx? && ActEnabled(l, act) && a in Do(l, b, act).mem.releases
    ensures Claimed(l.db, b, l.mem, a)
  {
    var inv := l.mem.pending[act.a];
    assert EntryOk(l.db, b, l.mem, act.a);
    assert PendingIn(l.db, b, inv.id) && l.db.invoices[inv.id].address == act.a;
    if act.verdict.Some? && inv.required <= act.verdict.value && inv.status == PENDING {
      var l1 := MarkMempool(l, act.a, act.verdict.value, act.tx, act.markSql);
      Steps.MarkKeeps(l, b, act.a, act.verdict.value, act.tx, act.markSql);
      assert EntryOk(l1.db, b, l1.mem, act.a);
      AfterMarkReleases(l, l1, b, act.a, act.reply, act.sql, a);
    }
  }

  /** A spawned release targets an address that was claimed before. */
  lemma ReleasesWereClaimed(l: Local, b: BaseCoin, act: Act, a: Address)
    requires Inv(l, b) && ActEnabled(l, act) && a in Do(l, b, act).mem.releases
    ensures Claimed(l.db, b, l.mem, a)
  {
    match act
    case DoCreate(_, _, _, _) =>
    case DoCheckTx(_, _, _, _, _, _) => CheckTxReleasesClaimed(l, b, act, a);
    case DoCheckBlock(at, reply, sql) =>
      assert EntryOk(l.db, b, l.mem, at);
      ConfirmReleasesClaimed(l, b, at, reply, sql, a);
    case DoFire(id, sql) =>
      if a !in l.mem.releases {
        var x := l.mem.timers[id].address;
        assert EntryOk(l.db, b, l.mem, x);
        assert PendingIn(l.db, b, l.mem.pending[x].id) && l.db.invoices[l.mem.pending[x].id].address == x;
      }
    case DoTimerExit(_) =>
    case DoRelease(_, _) =>
  }

  /** The address a creation allocates. */
  function Allocated(l: Local, b: BaseCoin, act: Act): Option<Address> {
    if act.DoCreate? && Home(act.req.coin) == Some(b) then
      match P.Allocate(l.db.pool, act.req.user, act.req.coin, b, act.pick)
      case None => None
      case Some(r) => Some(r.address)
    else
      None
  }

  lemma NewRowIsCreated(l: Local, b: BaseCoin, act: Act, id: InvoiceId)
    requires ActEnabled(l, act) && id in Do(l, b, act).db.invoices && id !in l.db.invoices
    ensures act.DoCreate? && act.id == id && Allocated(l, b, act) == Some(Do(l, b, act).db.invoices[id].address)
  {
  }

  /** Only a creation makes a new claim, on the address it allocates. */
  lemma {:induction false} ClaimsWereClaimed(l: Local, b: BaseCoin, act: Act, a: Address)
    requires Inv(l, b) && ActEnabled(l, act)
    requires var l' := Do(l, b, act); Claimed(l'.db, b, l'.mem, a)
    ensures Claimed(l.db, b, l.mem, a) || Allocated(l, b, act) == Some(a)
  {
    var l' := Do(l, b, act);
    Steps.DoKeepsInv(l, b, act);
    if i :| PendingIn(l'.db, b, i) && l'.db.invoices[i].address == a {
      if i in l.db.invoices {
        assert RowKept(l.db.invoices[i], l'.db.invoices[i]);
        assert PendingIn(l.db, b, i) && l.db.invoices[i].address == a;
      } else {
        NewRowIsCreated(l, b, act, i);
      }
    } else {
      ReleasesWereClaimed(l, b, act, a);
    }
  }

  lemma DoKeepsKeys(l: Local, b: BaseCoin, act: Act)
    requires P.PoolOk(l.db.pool) && ActEnabled(l, act)
    ensures Steps.SameKeys(l.db.pool, Do(l, b, act).db.pool)
  {
    if act.DoCreate? {
      if Allocated(l, b, act).Some? {
        Steps.AllocateClaims(l.db.pool, act.req.user, act.req.coin, b, act.pick);
      }
    } else if !act.DoRelease? {
      Frames.PoolFrame(l, b, act);
    }
  }

  /** Apart from the allocated and the released address, every address stays secured for every coin. */
  lemma PoolKeepsOthers(l: Local, b: BaseCoin, act: Act, c: BaseCoin, a: Address)
    requires P.PoolOk(l.db.pool) && ActEnabled(l, act) && Allocated(l, b, act) != Some(a)
    requires act.DoRelease? ==> act.a != a
    ensures Secured(l.db.pool, c, a) ==> Secured(Do(l, b, act).db.pool, c, a)
  {
    DoKeepsKeys(l, b, act);
    if act.DoCreate? {
      if Allocated(l, b, act).Some? {
        Steps.AllocateKeepsOthers(l.db.pool, act.req.user, act.req.coin, b, act.pick, c, a);
      }
    } else if !act.DoRelease? {
      Frames.PoolFrame(l, b, act);
    }
  }

  // ----- Steps of other processors -----

  /** A row of the coin is no dead address. */
  lemma RowIsAlive(p: P.Pool, b: BaseCoin, a: Address)
    requires P.PoolOk(p) && a in p.addresses && p.addresses[a].coin == b
    ensures !Dead(p, b, a)
  {
    assert P.HasRow(p, p.addresses[a].user, b, a);
    assert P.Issued(p, p.addresses[a].user, b, a);
  }

  /** A step of c leaves an address alone that is secured for b. */
  lemma OtherKeepsSecured(l: Local, c: BaseCoin, act: Act, b: BaseCoin, a: Address)
    requires Inv(l, c) && (FormatOf(b) == FormatOf(c) ==> ForeignOk(l.db, b, c, l.mem)) && ActEnabled(l, act) && c != b
    requires Secured(l.db.pool, b, a) && a.format == FormatOf(b)
    ensures Secured(Do(l, c, act).db.pool, b, a)
  {
    DoKeepsKeys(l, c, act);
    if act.DoRelease? && act.a == a {
      ForeignReleaseIsDead(l, b, c, a);
    } else if Allocated(l, c, act) == Some(a) {
      AllocationIsOwn(l, c, act, b, a);
    } else {
      PoolKeepsOthers(l, c, act, b, a);
    }
  }

  /** What c is about to release, b cannot hand out. */
  lemma ForeignReleaseIsDead(l: Local, b: BaseCoin, c: BaseCoin, a: Address)
    requires Inv(l, c) && a in l.mem.releases && a.format == FormatOf(b)
    requires FormatOf(b) == FormatOf(c) ==> ForeignOk(l.db, b, c, l.mem)
    ensures Dead(l.db.pool, b, a)
  {
    assert AddressOk(c, a);
    assert Claimed(l.db, c, l.mem, a);
  }

  /** A coin never hands out the row of another one. */
  lemma AllocationIsOwn(l: Local, c: BaseCoin, act: Act, b: BaseCoin, a: Address)
    requires P.PoolOk(l.db.pool) && ActEnabled(l, act) && c != b && Allocated(l, c, act) == Some(a)
    ensures !(a in l.db.pool.addresses && l.db.pool.addresses[a].coin == b)
  {
    var p := l.db.pool;
    if P.HasFree(p, act.req.user, act.req.coin) {
      assert P.FreeFor(p, act.req.user, act.req.coin, a);
    }
  }

  /** What another processor's step does to the claims, releases and timers of b: nothing. */
  lemma {:induction false} OtherKeepsExclusive(l: Local, c: BaseCoin, act: Act, b: BaseCoin, m: Memory)
    requires Inv(l, c) && (FormatOf(b) == FormatOf(c) ==> ForeignOk(l.db, b, c, l.mem)) && ActEnabled(l, act) && c != b
    requires MemOk(l.db, b, m) && ExclusiveOk(l.db, b, m)
    ensures ExclusiveOk(Do(l, c, act).db, b, m)
  {
    var d' := Do(l, c, act).db;
    Frames.DoFrame(l, c, act, b);
    Frames.FrameKeepsUse(l.db, d', b);
    DoKeepsKeys(l, c, act);
    forall a | Claimed(l.db, b, m, a) && Secured(l.db.pool, b, a)
      ensures Secured(d'.pool, b, a)
    {
      ClaimFormat(l.db, b, m, a);
      OtherKeepsSecured(l, c, act, b, a);
    }
    StandingKeepsExclusive(l.db, d', b, m);
  }

  // ----- What the coin and those sharing its encoding cannot take from each other -----

  /** c claims no more than before, or an address that derives from its own key. */
  lemma ForeignSteps(l: Local, b: BaseCoin, c: BaseCoin, act: Act)
    requires Inv(l, c) && c != b && FormatOf(c) == FormatOf(b) && Steps.Apart(l.db.pool, b) && ActEnabled(l, act)
    requires ForeignOk(l.db, b, c, l.mem)
    ensures var l' := Do(l, c, act); ForeignOk(l'.db, b, c, l'.mem)
  {
    var l' := Do(l, c, act);
    DoKeepsKeys(l, c, act);
    forall a | Claimed(l'.db, c, l'.mem, a)
      ensures Dead(l'.db.pool, b, a)
    {
      ClaimsWereClaimed(l, c, act, a);
      if Allocated(l, c, act) == Some(a) {
        Steps.AllocateClaims(l.db.pool, act.req.user, act.req.coin, c, act.pick);
      }
    }
  }

  /** A step of another processor makes c claim nothing. */
  lemma ForeignStays(l: Local, x: BaseCoin, act: Act, b: BaseCoin, c: BaseCoin, m: Memory)
    requires Inv(l, x) && x != c && ActEnabled(l, act) && ForeignOk(l.db, b, c, m)
    ensures ForeignOk(Do(l, x, act).db, b, c, m)
  {
    var d' := Do(l, x, act).db;
    DoKeepsKeys(l, x, act);
    Frames.DoFrame(l, x, act, c);
    Frames.FrameKeepsUse(l.db, d', c);
    forall a | Claimed(d', c, m, a)
      ensures Dead(d'.pool, b, a)
    {
      assert Claimed(l.db, c, m, a);
    }
  }

  lemma ClaimFormat(d: Db, b: BaseCoin, m: Memory, a: Address)
    requires RowsOk(d) && TimersOk(d, b, m) && Claimed(d, b, m, a)
    ensures a.format == FormatOf(b) && AddressOk(b, a)
  {
    if i :| PendingIn(d, b, i) && d.invoices[i].address == a {
      assert RowOk(d, i);
    }
  }

  /** If the pending invoices stay, and claimed addresses stay secured and dead ones dead, so does exclusivity. */
  lemma StandingKeepsExclusive(d: Db, d': Db, b: BaseCoin, m: Memory)
    requires ExclusiveOk(d, b, m) && Steps.SamePending(d, d', b)
    requires forall a :: InUse(d', b, a) <==> InUse(d, b, a)
    requires forall a :: Claimed(d, b, m, a) && Secured(d.pool, b, a) ==> Secured(d'.pool, b, a)
    requires forall id :: Stale(d, b, m, id) && Dead(d.pool, b, m.timers[id].address)
                          ==> Dead(d'.pool, b, m.timers[id].address)
    ensures ExclusiveOk(d', b, m)
  {
    forall i | PendingIn(d', b, i)
      ensures m.releases[d'.invoices[i].address] == 0 && Secured(d'.pool, b, d'.invoices[i].address)
    {
      assert PendingIn(d, b, i) && Claimed(d, b, m, d.invoices[i].address);
    }
    forall a | a in m.releases
      ensures m.releases[a] == 1 && Secured(d'.pool, b, a)
    {
      assert Claimed(d, b, m, a);
    }
    forall id | Stale(d', b, m, id)
      ensures Dead(d'.pool, b, m.timers[id].address) && !InUse(d', b, m.timers[id].address)
    {
      assert Stale(d, b, m, id);
    }
  }

  // ----- Key updates -----

  /** No claimed address of a coin derives from the key. */
  ghost predicate QuietFor(d: Db, b: BaseCoin, m: Memory, key: Key) {
    forall a :: Claimed(d, b, m, a) ==> a.key != key
  }

  /** Nor does the address of one of its armed timers. */
  ghost predicate NoTimerOf(m: Memory, key: Key) {
    forall id :: Armed(m, id) ==> m.timers[id].address.key != key
  }

  /** After an accepted request an address that was secured is so, and a dead one is dead, unless it derives from the
      new key. */
  lemma UpdateEachSecures(p: P.Pool, user: UserId, rs: seq<P.KeyRequest>, b: BaseCoin, a: Address)
    requires P.PoolOk(p) && P.UpdateEach(p, user, rs).Some? && P.KeyFor(rs, b) != Some(a.key)
    ensures var p' := P.UpdateEach(p, user, rs).value;
            (Dead(p, b, a) ==> Dead(p', b, a)) && (Secured(p, b, a) ==> Secured(p', b, a))
  {
    var p' := P.UpdateEach(p, user, rs).value;
    forall u | (u, b) in p'.keys && p'.keys[(u, b)].key == a.key
      ensures (u, b) in p.keys && p.keys[(u, b)].key == a.key
      ensures forall x :: P.HasRow(p, u, b, x) ==> x in p'.addresses && p'.addresses[x] == p.addresses[x]
    {
      if u == user && P.KeyFor(rs, b).Some? {
        P.UpdateEachWipes(p, user, b, rs);
      } else {
        P.UpdateEachFrame(p, user, rs, u, b);
      }
    }
    if Secured(p, b, a) && !Dead(p', b, a) {
      var u :| (u, b) in p'.keys && p'.keys[(u, b)].key == a.key;
      KeyOfRow(p, u, b, a);
    }
  }

  /** A row belongs to the user whose key it derives from. */
  lemma KeyOfRow(p: P.Pool, u: UserId, b: BaseCoin, a: Address)
    requires P.PoolOk(p) && (u, b) in p.keys && p.keys[(u, b)].key == a.key
    requires a in p.addresses && p.addresses[a].coin == b
    ensures P.HasRow(p, u, b, a)
  {
    var v := p.addresses[a].user;
    assert P.HasRow(p, v, b, a);
    assert P.Issued(p, v, b, a);
    assert P.Clash(p.keys[(u, b)].key, p.keys[(v, b)].key);
  }

  lemma {:induction false} UpdateKeepsExclusive(d: Db, user: UserId, rs: seq<P.KeyRequest>, b: BaseCoin, m: Memory)
    requires RowsOk(d) && ExclusiveOk(d, b, m) && P.UpdateEach(d.pool, user, rs).Some?
    requires P.KeyFor(rs, b).Some? ==> QuietFor(d, b, m, P.KeyFor(rs, b).value) && NoTimerOf(m, P.KeyFor(rs, b).value)
    ensures ExclusiveOk(d.(pool := P.UpdateKeys(d.pool, user, rs)), b, m)
  {
    var d' := d.(pool := P.UpdateKeys(d.pool, user, rs));
    Frames.FrameKeepsUse(d, d', b);
    forall a | Claimed(d, b, m, a) && Secured(d.pool, b, a)
      ensures Secured(d'.pool, b, a)
    {
      UpdateEachSecures(d.pool, user, rs, b, a);
    }
    forall id | Stale(d, b, m, id) && Dead(d.pool, b, m.timers[id].address)
      ensures Dead(d'.pool, b, m.timers[id].address)
    {
      UpdateEachSecures(d.pool, user, rs, b, m.timers[id].address);
    }
    StandingKeepsExclusive(d, d', b, m);
  }

  lemma UpdateKeepsForeign(d: Db, user: UserId, rs: seq<P.KeyRequest>, b: BaseCoin, c: BaseCoin, m: Memory)
    requires RowsOk(d) && ForeignOk(d, b, c, m) && P.UpdateEach(d.pool, user, rs).Some?
    requires P.KeyFor(rs, b).Some? ==> QuietFor(d, c, m, P.KeyFor(rs, b).value)
    ensures ForeignOk(d.(pool := P.UpdateKeys(d.pool, user, rs)), b, c, m)
  {
    var d' := d.(pool := P.UpdateKeys(d.pool, user, rs));
    forall a | Claimed(d', c, m, a)
      ensures Dead(d'.pool, b, a)
    {
      assert Claimed(d, c, m, a);
      UpdateEachSecures(d.pool, user, rs, b, a);
    }
  }

  // ----- Restarts -----

  lemma ShiftKeepsUse(d: Db, now: int, b: BaseCoin)
    ensures Steps.SamePending(d, Shift(d, now), b)
    ensures forall a :: InUse(Shift(d, now), b, a) <==> InUse(d, b, a)
  {
    var d' := Shift(d, now);
    forall a
      ensures InUse(d', b, a) <==> InUse(d, b, a)
    {
      if i :| PendingIn(d, b, i) && d.invoices[i].address == a {
        assert PendingIn(d', b, i) && d'.invoices[i].address == a;
      }
      if i :| PendingIn(d', b, i) && d'.invoices[i].address == a {
        assert PendingIn(d, b, i) && d.invoices[i].address == a;
      }
    }
  }

  lemma RestartKeepsExclusive(d: Db, now: int, b: BaseCoin, m: Memory, m': Memory)
    requires ExclusiveOk(d, b, m) && m'.releases == multiset{}
    requires forall t :: t in m'.timers ==> PendingIn(Shift(d, now), b, t)
    ensures ExclusiveOk(Shift(d, now), b, m')
  {
    var d' := Shift(d, now);
    ShiftKeepsUse(d, now, b);
    forall i | PendingIn(d', b, i)
      ensures Secured(d'.pool, b, d'.invoices[i].address)
    {
      assert PendingIn(d, b, i);
    }
  }

  lemma RestartKeepsForeign(d: Db, now: int, b: BaseCoin, c: BaseCoin, m: Memory, m': Memory)
    requires ForeignOk(d, b, c, m) && m'.releases == multiset{}
    ensures ForeignOk(Shift(d, now), b, c, m')
  {
    ShiftKeepsUse(d, now, c);
    forall a | Claimed(Shift(d, now), c, m', a)
      ensures Dead(d.pool, b, a)
    {
      assert Claimed(d, c, m, a);
    }
  }
}
