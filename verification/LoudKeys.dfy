/** The premise of exclusivity about keys is exact: a key update keeps exclusivity on every orderly continuation exactly
    if no claimed address of the coin or of one sharing its encoding, and no armed timer's, derives from the new
    key. */
module LoudKeys {
  import opened Domain
  import opened Lifecycle
  import opened Invariants
  import opened PaymentSystem
  import opened KeyReuse
  import P = Pool
  import Counter
  import Steps
  import Frames
  import Claims

  // ----- Claims of the coin itself -----

  lemma {:induction false} OwnClaimBreaks(steps: seq<Step>, user: UserId, rs: seq<P.KeyRequest>, b: BaseCoin,
                                          a: Address)
    returns (all: seq<Step>)
    requires Accepted(steps, user, rs, b)
    requires Claimed(Exec(steps).value.db, b, Exec(steps).value.procs[b], a) && P.KeyFor(rs, b) == Some(a.key)
    ensures Extends(steps + [UpdateCryptoKeys(user, rs)], all)
    ensures Exec(all).Some? && !Exclusive(Exec(all).value.db, b)
  {
    var s := Exec(steps).value;
    RunConsistent(steps);
    assert MemOk(s.db, b, Mem(s, b));
    Claims.ClaimFormat(s.db, b, Mem(s, b), a);
    var n := AddressIndex(b, a.key, a);
    UpdateStarts(steps, user, rs, b);
    var updated := steps + [UpdateCryptoKeys(user, rs)];
    var staged := ReachStage(s, updated, user, b, a.key, 0, n);
    all := SharedAddress(s, staged, user, b, a.key, n);
    ExtendsTransitive(updated, staged, all);
  }

  lemma {:induction false} StaleBreaks(steps: seq<Step>, user: UserId, rs: seq<P.KeyRequest>, b: BaseCoin,
                                       id: InvoiceId)
    returns (all: seq<Step>)
    requires Accepted(steps, user, rs, b)
    requires var s := Exec(steps).value;
             Stale(s.db, b, Mem(s, b), id) && P.KeyFor(rs, b) == Some(Mem(s, b).timers[id].address.key)
    ensures Extends(steps + [UpdateCryptoKeys(user, rs)], all)
    ensures Exec(all).Some? && !Exclusive(Exec(all).value.db, b)
  {
    var s := Exec(steps).value;
    var x := Mem(s, b).timers[id].address;
    RunConsistent(steps);
    assert TimerOk(s.db, b, Mem(s, b), id) && RowOk(s.db, id);
    var n := AddressIndex(b, x.key, x);
    UpdateStarts(steps, user, rs, b);
    var updated := steps + [UpdateCryptoKeys(user, rs)];
    var staged := ReachStage(s, updated, user, b, x.key, 0, n);
    RunEvolves(staged, |steps|);
    assert staged[..|steps|] == updated[..|steps|] == steps;
    StaleRemains(steps, staged, b, id);
    StagedRow(s, Exec(staged).value, user, b, x.key, n, staged);
    all := StaleTail(staged, b, x, id, user);
    ExtendsTransitive(updated, staged, all);
  }

  lemma StaleRemains(steps: seq<Step>, staged: seq<Step>, b: BaseCoin, id: InvoiceId)
    requires Exec(steps).Some? && Exec(staged).Some? && Evolves(Exec(steps).value.db, Exec(staged).value.db)
    requires id in Exec(steps).value.db.invoices && Owns(Exec(steps).value.db, b, id)
    requires !PendingIn(Exec(steps).value.db, b, id)
    ensures !PendingIn(Exec(staged).value.db, b, id)
  {
    assert RowKept(Exec(steps).value.db.invoices[id], Exec(staged).value.db.invoices[id]);
  }

  lemma StagedRow(s0: System, s: System, user: UserId, b: BaseCoin, key: Key, n: nat, steps: seq<Step>)
    requires Exec(steps) == Some(s) && Stage(s0, s, user, b, key, n) && 1 <= n < Counter.CAPACITY
    ensures P.HasRow(s.db.pool, user, b, Target(b, key, n))
  {
    RunConsistent(steps);
    Counter.ValueInvertsAt(n);
    assert P.Issued(s.db.pool, user, b, Target(b, key, n));
  }

  lemma UnusedIsStale(d: Db, b: BaseCoin, m: Memory, id: InvoiceId)
    requires MemOk(d, b, m) && Armed(m, id) && !InUse(d, b, m.timers[id].address)
    ensures Stale(d, b, m, id)
  {
    assert TimerOk(d, b, m, id);
  }

  // ----- Claims of a coin that shares the encoding -----

  /** The user's row of b at the address is used by a pending invoice of b. */
  ghost predicate Holds(s: System, user: UserId, b: BaseCoin, a: Address, i: InvoiceId) {
    && b in s.procs && P.HasRow(s.db.pool, user, b, a)
    && PendingIn(s.db, b, i) && s.db.invoices[i].address == a
  }

  /** A release of the other coin frees the address of b. */
  lemma {:induction false} ForeignReleaseBreaks(steps: seq<Step>, user: UserId, b: BaseCoin, c: BaseCoin, a: Address,
                                                i: InvoiceId)
    returns (all: seq<Step>)
    requires Exec(steps).Some? && Holds(Exec(steps).value, user, b, a, i) && a in Mem(Exec(steps).value, c).releases
    ensures Extends(steps, all) && Exec(all).Some? && !Exclusive(Exec(all).value.db, b)
  {
    var release := Handle(c, DoRelease(a, true));
    var s := FreesUnder(Exec(steps).value, c, b, a, user, i);
    ExecSnoc(steps, release);
    all := ReuseAfter(steps + [release], s, user, b, a, i);
    ExtendsTransitive(steps, steps + [release], all);
  }

  /** The ids of the table can be listed. */
  lemma {:induction false} ListRows(d: Db, ids: set<InvoiceId>) returns (rows: seq<Invoice>)
    requires RowsOk(d) && ids <= d.invoices.Keys && forall id :: id in ids ==> IsPending(d.invoices[id].status)
    ensures Frames.PendingRows(d, rows)
    ensures forall i :: 0 <= i < |rows| ==> rows[i].id in ids
    ensures forall i, j :: 0 <= i < j < |rows| ==> rows[i].id != rows[j].id
    ensures forall id :: id in ids ==> d.invoices[id] in rows
    decreases ids
  {
    if ids == {} {
      rows := [];
    } else {
      var id :| id in ids;
      var rest := ListRows(d, ids - {id});
      assert RowOk(d, id);
      rows := rest + [d.invoices[id]];
    }
  }

  lemma ListExists(d: Db) returns (rows: seq<Invoice>)
    requires RowsOk(d)
    ensures Frames.Lists(d, rows)
  {
    rows := ListRows(d, set id | id in d.invoices && IsPending(d.invoices[id].status));
  }

  /** A restart tracks the other coin's invoice at the address again, with an armed timer. */
  lemma RestartTracks(s: System, user: UserId, b: BaseCoin, c: BaseCoin, a: Address, i: InvoiceId, j: InvoiceId)
    returns (step: Step)
    requires Consistent(s) && Holds(s, user, b, a, i) && PendingIn(s.db, c, j) && s.db.invoices[j].address == a
    ensures step.Restart? && Enabled(s, step) && Holds(Apply(s, step), user, b, a, i)
    ensures c in Apply(s, step).procs && a in Apply(s, step).procs[c].pending
  {
    Frames.ShiftKeepsRows(s.db, 0);
    var d := Shift(s.db, 0);
    var rows := ListExists(d);
    step := Restart(0, {b, c}, rows);
    Frames.LoadTracks(c, rows, a);
    assert PendingIn(d, c, j) && d.invoices[j] in rows;
  }

  /** That timer expires the invoice and spawns a release. */
  lemma ForeignFires(s: System, user: UserId, b: BaseCoin, c: BaseCoin, a: Address, i: InvoiceId) returns (step: Step)
    requires Consistent(s) && Holds(s, user, b, a, i) && c != b && c in s.procs && a in s.procs[c].pending
    ensures Tame(step) && Enabled(s, step) && Holds(Apply(s, step), user, b, a, i)
    ensures a in Mem(Apply(s, step), c).releases
  {
    var id := s.procs[c].pending[a].id;
    assert MemOk(s.db, c, Mem(s, c));
    assert EntryOk(s.db, c, Mem(s, c), a) && TimerOk(s.db, c, Mem(s, c), id);
    step := Handle(c, DoFire(id, true));
  }

  lemma {:induction false} ForeignEntryBreaks(steps: seq<Step>, user: UserId, b: BaseCoin, c: BaseCoin, a: Address,
                                              i: InvoiceId)
    returns (all: seq<Step>)
    requires Exec(steps).Some? && Holds(Exec(steps).value, user, b, a, i) && c != b
    requires c in Exec(steps).value.procs && a in Exec(steps).value.procs[c].pending
    ensures Extends(steps, all) && Exec(all).Some? && !Exclusive(Exec(all).value.db, b)
  {
    RunConsistent(steps);
    var fire := ForeignFires(Exec(steps).value, user, b, c, a, i);
    ExecSnoc(steps, fire);
    all := ForeignReleaseBreaks(steps + [fire], user, b, c, a, i);
    ExtendsTransitive(steps, steps + [fire], all);
  }

  lemma {:induction false} ForeignInvoiceBreaks(steps: seq<Step>, user: UserId, b: BaseCoin, c: BaseCoin, a: Address,
                                                i: InvoiceId, j: InvoiceId)
    returns (all: seq<Step>)
    requires Exec(steps).Some? && Holds(Exec(steps).value, user, b, a, i) && c != b
    requires PendingIn(Exec(steps).value.db, c, j) && Exec(steps).value.db.invoices[j].address == a
    ensures Extends(steps, all) && Exec(all).Some? && !Exclusive(Exec(all).value.db, b)
  {
    RunConsistent(steps);
    var restart := RestartTracks(Exec(steps).value, user, b, c, a, i, j);
    ExecSnoc(steps, restart);
    all := ForeignEntryBreaks(steps + [restart], user, b, c, a, i);
    ExtendsTransitive(steps, steps + [restart], all);
  }

  lemma StagedHolds(s0: System, staged: seq<Step>, user: UserId, b: BaseCoin, key: Key, n: nat) returns (i: InvoiceId)
    requires AtStage(s0, staged, user, b, key, n) && 1 <= n < Counter.CAPACITY
    ensures Holds(Exec(staged).value, user, b, Target(b, key, n), i)
  {
    var s := Exec(staged).value;
    StagedRow(s0, s, user, b, key, n, staged);
    i :| i !in s0.db.invoices && PendingIn(s.db, b, i) && s.db.invoices[i].address == Target(b, key, n);
  }

  /** After the request b hands out addresses up to the one that c claims. */
  lemma HandOut(steps: seq<Step>, user: UserId, rs: seq<P.KeyRequest>, b: BaseCoin, a: Address)
    returns (staged: seq<Step>, i: InvoiceId)
    requires Accepted(steps, user, rs, b) && P.KeyFor(rs, b) == Some(a.key) && AddressOk(b, a)
    ensures Extends(steps + [UpdateCryptoKeys(user, rs)], staged) && Exec(staged).Some?
    ensures Holds(Exec(staged).value, user, b, a, i)
    ensures StillPending(Exec(steps).value, Exec(staged).value)
    ensures forall c :: c != b ==> Mem(Exec(staged).value, c) == Mem(Exec(steps).value, c)
  {
    var s := Exec(steps).value;
    var n := AddressIndex(b, a.key, a);
    UpdateStarts(steps, user, rs, b);
    staged := ReachStage(s, steps + [UpdateCryptoKeys(user, rs)], user, b, a.key, 0, n);
    i := StagedHolds(s, staged, user, b, a.key, n);
  }

  lemma {:induction false} ForeignClaimBreaks(steps: seq<Step>, user: UserId, rs: seq<P.KeyRequest>, b: BaseCoin,
                                              c: BaseCoin, a: Address)
    returns (all: seq<Step>)
    requires Accepted(steps, user, rs, b) && c != b && FormatOf(c) == FormatOf(b)
    requires Claimed(Exec(steps).value.db, c, Mem(Exec(steps).value, c), a) && P.KeyFor(rs, b) == Some(a.key)
    ensures Extends(steps + [UpdateCryptoKeys(user, rs)], all)
    ensures Exec(all).Some? && !Exclusive(Exec(all).value.db, b)
  {
    var s := Exec(steps).value;
    ClaimIsOk(steps, c, a);
    var staged, i := HandOut(steps, user, rs, b, a);
    if j :| PendingIn(s.db, c, j) && s.db.invoices[j].address == a {
      assert PendingIn(Exec(staged).value.db, c, j);
      all := ForeignInvoiceBreaks(staged, user, b, c, a, i, j);
    } else {
      all := ForeignReleaseBreaks(staged, user, b, c, a, i);
    }
    ExtendsTransitive(steps + [UpdateCryptoKeys(user, rs)], staged, all);
  }

  lemma ClaimIsOk(steps: seq<Step>, c: BaseCoin, a: Address)
    requires Exec(steps).Some? && Claimed(Exec(steps).value.db, c, Mem(Exec(steps).value, c), a)
    ensures AddressOk(c, a)
  {
    var s := Exec(steps).value;
    RunConsistent(steps);
    assert MemOk(s.db, c, Mem(s, c));
    Claims.ClaimFormat(s.db, c, Mem(s, c), a);
  }

  // ----- Exactness -----

  /** A request that leaves the coin with a key that is not quiet has a continuation, by restarts and handler steps
      without rejections, in which two pending invoices share an address. */
  lemma {:induction false} LoudUpdateBreaks(steps: seq<Step>, user: UserId, rs: seq<P.KeyRequest>, b: BaseCoin)
    returns (all: seq<Step>)
    requires Accepted(steps, user, rs, b) && P.KeyFor(rs, b).Some?
    requires !Quiet(Exec(steps).value, b, P.KeyFor(rs, b).value)
    ensures Extends(steps + [UpdateCryptoKeys(user, rs)], all)
    ensures Exec(all).Some? && !Exclusive(Exec(all).value.db, b)
  {
    var s := Exec(steps).value;
    var key := P.KeyFor(rs, b).value;
    if a :| Claimed(s.db, b, Mem(s, b), a) && a.key == key {
      all := OwnClaimBreaks(steps, user, rs, b, a);
    } else if c, a :| FormatOf(c) == FormatOf(b) && Claimed(s.db, c, Mem(s, c), a) && a.key == key {
      all := ForeignClaimBreaks(steps, user, rs, b, c, a);
    } else {
      var id :| Armed(Mem(s, b), id) && Mem(s, b).timers[id].address.key == key;
      RunConsistent(steps);
      UnusedIsStale(s.db, b, Mem(s, b), id);
      all := StaleBreaks(steps, user, rs, b, id);
    }
  }

  lemma LoudFails(steps: seq<Step>, user: UserId, rs: seq<P.KeyRequest>, b: BaseCoin) returns (more: seq<Step>)
    requires Accepted(steps, user, rs, b) && P.KeyFor(rs, b).Some?
    requires !Quiet(Exec(steps).value, b, P.KeyFor(rs, b).value)
    ensures !ExclusiveAfter(steps, UpdateCryptoKeys(user, rs), more, b)
  {
    var all := LoudUpdateBreaks(steps, user, rs, b);
    ExecSnoc(steps, UpdateCryptoKeys(user, rs));
    more := BreaksAfter(steps, UpdateCryptoKeys(user, rs), all, b);
  }

  /** For every coin and every request of any user, whatever parts it has and whether or not the tables accept it: after
      an orderly run, while the coin runs, the request keeps its pending invoices on distinct addresses in every
      orderly continuation exactly if it is refused, leaves the key of the coin alone, or leaves it with a quiet one. */
  lemma {:induction false} QuietIsExact(steps: seq<Step>, user: UserId, rs: seq<P.KeyRequest>, b: BaseCoin)
    requires Exec(steps).Some? && Orderly(steps, 0, b) && b in Exec(steps).value.procs
    requires Steps.Apart(Exec(steps).value.db.pool, b)
    requires Steps.Apart(P.UpdateKeys(Exec(steps).value.db.pool, user, rs), b)
    ensures var s := Exec(steps).value;
            || P.UpdateEach(s.db.pool, user, rs).None?
            || P.KeyFor(rs, b).None?
            || Quiet(s, b, P.KeyFor(rs, b).value)
            <==> forall more: seq<Step> :: ExclusiveAfter(steps, UpdateCryptoKeys(user, rs), more, b)
  {
    var s := Exec(steps).value;
    if P.UpdateEach(s.db.pool, user, rs).None? || P.KeyFor(rs, b).None? || Quiet(s, b, P.KeyFor(rs, b).value) {
      forall more: seq<Step>
        ensures ExclusiveAfter(steps, UpdateCryptoKeys(user, rs), more, b)
      {
        OrderlySuffices(steps, UpdateCryptoKeys(user, rs), more, b);
      }
    } else {
      var more := LoudFails(steps, user, rs, b);
    }
  }
}
